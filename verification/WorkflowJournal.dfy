/** The journal of workflows and its reload at boot (Rehydrate of backend/usecase/workflow.go): whatever
    order the records come in, no lane gets two live workflows, and a journal the coordinator wrote comes
    back as it was. */
module WorkflowJournal {
  import opened WorkflowRecord
  import opened WorkflowWorld
  import opened WorkflowBook

  /** Two records fight for a lane: neither may go on. */
  function Duplicate(w: Workflow, at: int): Workflow {
    w.(status := Failed, reason := DuplicateLane, child := "", updatedAt := at)
  }

  ghost predicate DistinctIds(recs: seq<Workflow>) {
    forall i, j | 0 <= i < j < |recs| :: recs[i].id != recs[j].id
  }

  /** A journal worth recovering: sound records, at most one live on a lane. */
  ghost predicate Recoverable(world: World, recs: seq<Workflow>) {
    && DistinctIds(recs)
    && (forall i | 0 <= i < |recs| :: Sound(world, recs[i]))
    && (forall i, j | 0 <= i < j < |recs| ::
          !recs[i].Historical() && !recs[j].Historical() ==> recs[i].laneKey != recs[j].laneKey)
  }

  /** The journal's records, each once, in any order. */
  ghost predicate Lists(journal: map<string, Workflow>, recs: seq<Workflow>) {
    && DistinctIds(recs)
    && (forall i | 0 <= i < |recs| :: recs[i].id in journal && journal[recs[i].id] == recs[i])
    && (forall id | id in journal :: exists i :: 0 <= i < |recs| && recs[i].id == id)
  }

  // --- loading one record ---

  predicate Owned(b: Book, lane: string) {
    lane in b.byLane && b.byLane[lane] in b.workflows
  }

  function OwnerOf(b: Book, lane: string): Workflow
    requires Owned(b, lane)
  {
    b.workflows[b.byLane[lane]]
  }

  /** The record is taken as it is. */
  predicate Fits(b: Book, w: Workflow) {
    Owned(b, w.laneKey) ==> OwnerOf(b, w.laneKey).Historical() != w.Historical()
  }

  predicate TakesLane(b: Book, w: Workflow) {
    Owned(b, w.laneKey) ==> !w.Historical()
  }

  ghost predicate Accepts(a: Book, b: Book, w: Workflow) {
    && Fits(a, w)
    && b.workflows == a.workflows[w.id := w] && b.journal == a.journal && b.written == a.written && b.spawned == a.spawned
    && b.byLane == if TakesLane(a, w) then a.byLane[w.laneKey := w.id] else a.byLane
  }

  /** The record and the lane's owner are both refused. */
  ghost predicate Refuses(world: World, a: Book, b: Book, w: Workflow, at: int, at': int) {
    && Owned(a, w.laneKey) && OwnerOf(a, w.laneKey).Historical() == w.Historical()
    && var owner := OwnerOf(a, w.laneKey);
       && b.workflows == a.workflows[owner.id := Duplicate(owner, at)][w.id := Duplicate(w, at')]
       && b.byLane == a.byLane && b.spawned == a.spawned
       && (AllWritable(world) ==>
             b.journal == a.journal[owner.id := Duplicate(owner, at)][w.id := Duplicate(w, at')])
  }

  ghost predicate LoadsOne(world: World, a: Book, b: Book, w: Workflow) {
    Accepts(a, b, w) || exists at, at' :: Refuses(world, a, b, w, at, at')
  }

  predicate SameOrDuplicate(a: Workflow, b: Workflow) {
    b == a || (a.Historical() && b == Duplicate(a, b.updatedAt))
  }

  ghost predicate Among(recs: seq<Workflow>, i: nat, id: string) {
    exists k :: 0 <= k < i <= |recs| && recs[k].id == id
  }

  /** The first i records are loaded. */
  ghost predicate Loaded(recs: seq<Workflow>, i: nat, b: Book)
    requires i <= |recs|
  {
    && (forall k | 0 <= k < i :: recs[k].id in b.workflows && SameOrDuplicate(recs[k], b.workflows[recs[k].id]))
    && (forall id | id in b.workflows :: Among(recs, i, id))
  }

  /** The journal is as up to date as at the start. */
  ghost predicate Synced(recs: seq<Workflow>, i: nat, b: Book)
    requires i <= |recs|
  {
    && (forall id | id in b.workflows :: id in b.journal && b.journal[id] == b.workflows[id])
    && (forall k | i <= k < |recs| :: recs[k].id in b.journal && b.journal[recs[k].id] == recs[k])
    && (forall id | id in b.journal :: Among(recs, |recs|, id))
  }

  lemma AmongMore(recs: seq<Workflow>, i: nat, id: string)
    requires i < |recs| && (Among(recs, i, id) || recs[i].id == id)
    ensures Among(recs, i + 1, id)
  {
    if recs[i].id == id { assert recs[i].id == id; }
  }

  lemma NotAmong(recs: seq<Workflow>, i: nat)
    requires i < |recs| && DistinctIds(recs)
    ensures !Among(recs, i, recs[i].id) && Among(recs, |recs|, recs[i].id)
  {}

  lemma LoadKeepsLanes(world: World, a: Book, b: Book, w: Workflow)
    requires LanesOwned(a) && LoadsOne(world, a, b, w) && w.id !in a.workflows && Walkable(w)
    ensures LanesOwned(b)
  {
    if Accepts(a, b, w) {
      AcceptKeepsLanes(a, b, w);
    } else {
      var at, at' :| Refuses(world, a, b, w, at, at');
      RefuseKeepsLanes(world, a, b, w, at, at');
    }
  }

  lemma AcceptKeepsLanes(a: Book, b: Book, w: Workflow)
    requires LanesOwned(a) && Accepts(a, b, w) && w.id !in a.workflows && Walkable(w)
    ensures LanesOwned(b)
  {}

  lemma RefuseKeepsLanes(world: World, a: Book, b: Book, w: Workflow, at: int, at': int)
    requires LanesOwned(a) && Refuses(world, a, b, w, at, at') && w.id !in a.workflows && Walkable(w)
    ensures LanesOwned(b)
  {
    hide LanesOwned, AllWritable;
    var owner := OwnerOf(a, w.laneKey);
    OwnerFiled(a, w.laneKey);
    FiledById(a, owner.id);
    OwnerWalkable(a, owner.id);
    HistoricalKeepsLanes(a, Duplicate(owner, at));
    var mid := a.(workflows := a.workflows[owner.id := Duplicate(owner, at)]);
    HistoricalKeepsLanes(mid, Duplicate(w, at'));
    SameLanes(mid.(workflows := mid.workflows[w.id := Duplicate(w, at')]), b);
  }

  lemma OwnerWalkable(b: Book, id: string)
    requires LanesOwned(b) && id in b.workflows
    ensures Walkable(b.workflows[id])
  {}

  /** A record that is over takes nobody's lane. */
  lemma HistoricalKeepsLanes(a: Book, x: Workflow)
    requires LanesOwned(a) && x.Historical() && Walkable(x)
    requires x.id in a.workflows ==> a.workflows[x.id].laneKey == x.laneKey
    ensures LanesOwned(a.(workflows := a.workflows[x.id := x]))
  {}

  lemma SameLanes(a: Book, b: Book)
    requires LanesOwned(a) && b.workflows == a.workflows && b.byLane == a.byLane
    ensures LanesOwned(b)
  {}

  /** Among records of a recoverable journal only historical ones collide. */
  lemma LoadKeepsRecords(world: World, recs: seq<Workflow>, i: nat, a: Book, b: Book)
    requires i < |recs| && Recoverable(world, recs) && LanesOwned(a) && LoadsOne(world, a, b, recs[i])
    requires Loaded(recs, i, a)
    ensures Loaded(recs, i + 1, b)
  {
    hide Sound, LanesOwned, Recoverable, Accepts, Refuses, Loaded;
    if Accepts(a, b, recs[i]) {
      AcceptKeepsRecords(world, recs, i, a, b);
    } else {
      var at, at' :| Refuses(world, a, b, recs[i], at, at');
      RefuseKeepsRecords(world, recs, i, a, b, at, at');
    }
  }

  lemma AcceptKeepsRecords(world: World, recs: seq<Workflow>, i: nat, a: Book, b: Book)
    requires i < |recs| && Recoverable(world, recs) && Accepts(a, b, recs[i]) && Loaded(recs, i, a)
    ensures Loaded(recs, i + 1, b)
  {
    hide Sound, Among, Fits, TakesLane;
    forall id | id in b.workflows ensures Among(recs, i + 1, id) { AmongMore(recs, i, id); }
  }

  lemma RefuseKeepsRecords(world: World, recs: seq<Workflow>, i: nat, a: Book, b: Book, at: int, at': int)
    requires i < |recs| && Recoverable(world, recs) && LanesOwned(a) && Refuses(world, a, b, recs[i], at, at')
    requires Loaded(recs, i, a)
    ensures Loaded(recs, i + 1, b)
  {
    hide Sound, Among, LanesOwned, Recoverable, AllWritable;
    OnlyHistoricalCollide(world, recs, i, a);
    OwnerFiled(a, recs[i].laneKey);
    IdsApart(world, recs, i);
    forall id | id in b.workflows ensures Among(recs, i + 1, id) { AmongMore(recs, i, id); }
  }

  lemma IdsApart(world: World, recs: seq<Workflow>, i: nat)
    requires i < |recs| && Recoverable(world, recs)
    ensures forall k | 0 <= k < i :: recs[k].id != recs[i].id
  {
    hide Sound;
  }

  lemma OwnerFiled(b: Book, lane: string)
    requires LanesOwned(b) && Owned(b, lane)
    ensures OwnerOf(b, lane).id == b.byLane[lane] && OwnerOf(b, lane).laneKey == lane
  {}

  lemma OnlyHistoricalCollide(world: World, recs: seq<Workflow>, i: nat, a: Book)
    requires i < |recs| && Recoverable(world, recs) && LanesOwned(a) && Loaded(recs, i, a)
    requires Owned(a, recs[i].laneKey) && OwnerOf(a, recs[i].laneKey).Historical() == recs[i].Historical()
    ensures recs[i].Historical()
  {
    hide Sound, LanesOwned;
    OwnerFiled(a, recs[i].laneKey);
    var owner := OwnerOf(a, recs[i].laneKey);
    assert Among(recs, i, owner.id);
    var k :| 0 <= k < i && recs[k].id == owner.id;
    assert SameOrDuplicate(recs[k], owner);
  }

  lemma LoadKeepsSynced(world: World, recs: seq<Workflow>, i: nat, a: Book, b: Book)
    requires i < |recs| && DistinctIds(recs) && LanesOwned(a) && LoadsOne(world, a, b, recs[i]) && AllWritable(world)
    requires Synced(recs, i, a) && forall id | id in a.workflows :: Among(recs, i, id)
    ensures Synced(recs, i + 1, b)
  {
    hide LanesOwned, DistinctIds, Accepts, Refuses, Synced, Among;
    if Accepts(a, b, recs[i]) {
      AcceptKeepsSynced(recs, i, a, b);
    } else {
      var at, at' :| Refuses(world, a, b, recs[i], at, at');
      RefuseKeepsSynced(world, recs, i, a, b, at, at');
    }
  }

  lemma AcceptKeepsSynced(recs: seq<Workflow>, i: nat, a: Book, b: Book)
    requires i < |recs| && Accepts(a, b, recs[i]) && Synced(recs, i, a)
    ensures Synced(recs, i + 1, b)
  {
    hide Among, Fits, TakesLane;
  }

  lemma RefuseKeepsSynced(world: World, recs: seq<Workflow>, i: nat, a: Book, b: Book, at: int, at': int)
    requires i < |recs| && DistinctIds(recs) && LanesOwned(a) && Refuses(world, a, b, recs[i], at, at') && AllWritable(world)
    requires Synced(recs, i, a) && forall id | id in a.workflows :: Among(recs, i, id)
    ensures Synced(recs, i + 1, b)
  {
    hide Among, LanesOwned, DistinctIds;
    OwnerFiled(a, recs[i].laneKey);
    var owner := OwnerOf(a, recs[i].laneKey);
    NotAmong(recs, i);
    forall k | i < k < |recs| ensures recs[k].id != owner.id && recs[k].id != recs[i].id {
      LaterApart(recs, i, k, owner.id);
    }
  }

  lemma LaterApart(recs: seq<Workflow>, i: nat, k: nat, id: string)
    requires DistinctIds(recs) && i < k < |recs|
    ensures recs[k].id != recs[i].id && (Among(recs, i, id) ==> recs[k].id != id)
  {}

  // --- who owns a lane after the reload ---

  /** The records of the lane the reload accepts that have not failed or been stopped, as they are read. */
  function LiveOn(world: World, recs: seq<Workflow>, lane: string): seq<Workflow> {
    if recs == [] then []
    else
      var w := recs[|recs| - 1];
      LiveOn(world, recs[..|recs| - 1], lane)
      + if ValidWorkflow(world, w) && !w.Historical() && w.laneKey == lane then [w] else []
  }

  ghost predicate NoneLive(b: Book, lane: string) {
    forall id | id in b.workflows && b.workflows[id].laneKey == lane :: b.workflows[id].Historical()
  }

  /** The lane is w's, as it was read. */
  predicate Owns(b: Book, lane: string, w: Workflow) {
    lane in b.byLane && b.byLane[lane] == w.id && w.id in b.workflows && b.workflows[w.id] == w
  }

  /** Each live record evicts the one before it and itself, so an odd one out owns the lane. */
  ghost predicate Parity(live: seq<Workflow>, b: Book, lane: string) {
    if |live| % 2 == 1 then Owns(b, lane, live[|live| - 1]) else NoneLive(b, lane)
  }

  lemma LiveMore(world: World, recs: seq<Workflow>, w: Workflow, lane: string)
    ensures LiveOn(world, recs + [w], lane)
            == LiveOn(world, recs, lane)
               + if ValidWorkflow(world, w) && !w.Historical() && w.laneKey == lane then [w] else []
  {
    hide ValidWorkflow;
    assert (recs + [w])[..|recs|] == recs;
  }

  lemma {:induction false} LiveOnes(world: World, recs: seq<Workflow>, lane: string)
    ensures forall w <- LiveOn(world, recs, lane) :: !w.Historical() && w.laneKey == lane && w in recs
  {
    hide ValidWorkflow;
    if recs != [] { LiveOnes(world, recs[..|recs| - 1], lane); }
  }

  lemma LoadKeepsParity(world: World, recs: seq<Workflow>, w: Workflow, a: Book, b: Book, lane: string)
    requires LanesOwned(a) && LoadsOne(world, a, b, w) && w.id !in a.workflows && ValidWorkflow(world, w)
    requires Parity(LiveOn(world, recs, lane), a, lane)
    ensures Parity(LiveOn(world, recs + [w], lane), b, lane)
  {
    hide LanesOwned, LoadsOne, ValidWorkflow, Owns, NoneLive, LiveOn;
    LiveMore(world, recs, w, lane);
    var live := LiveOn(world, recs, lane);
    LiveOnes(world, recs, lane);
    if w.laneKey != lane {
      LoadElsewhere(world, a, b, w, lane);
      if |live| % 2 == 1 { assert live[|live| - 1] in live; LoadLeavesOwner(world, a, b, w, live[|live| - 1]); }
    } else if |live| % 2 == 1 {
      assert live[|live| - 1] in live;
      if w.Historical() { LoadLeavesOwner(world, a, b, w, live[|live| - 1]); }
      else { LoadEvicts(world, a, b, w, live[|live| - 1]); }
    } else {
      LoadTakes(world, a, b, w);
    }
  }

  lemma LoadElsewhere(world: World, a: Book, b: Book, w: Workflow, lane: string)
    requires LanesOwned(a) && LoadsOne(world, a, b, w) && w.laneKey != lane && w.id !in a.workflows
    ensures NoneLive(a, lane) ==> NoneLive(b, lane)
  {
    hide AllWritable;
  }

  /** A record of another lane, or one that is over, leaves a live owner alone. */
  lemma LoadLeavesOwner(world: World, a: Book, b: Book, w: Workflow, owner: Workflow)
    requires LanesOwned(a) && LoadsOne(world, a, b, w) && w.id !in a.workflows
    requires !owner.Historical() && Owns(a, owner.laneKey, owner) && (w.laneKey != owner.laneKey || w.Historical())
    ensures Owns(b, owner.laneKey, owner)
  {
    hide AllWritable;
  }

  /** A live record and the live owner of its lane both go. */
  lemma LoadEvicts(world: World, a: Book, b: Book, w: Workflow, owner: Workflow)
    requires LanesOwned(a) && LoadsOne(world, a, b, w) && w.id !in a.workflows
    requires !owner.Historical() && Owns(a, w.laneKey, owner) && !w.Historical()
    ensures NoneLive(b, w.laneKey)
  {
    hide AllWritable;
  }

  /** On a lane nobody lives on, a live record takes it, and one that is over revives nobody. */
  lemma LoadTakes(world: World, a: Book, b: Book, w: Workflow)
    requires LanesOwned(a) && LoadsOne(world, a, b, w) && w.id !in a.workflows && NoneLive(a, w.laneKey)
    ensures if w.Historical() then NoneLive(b, w.laneKey) else Owns(b, w.laneKey, w)
  {
    hide AllWritable;
    if Owned(a, w.laneKey) { OwnerFiled(a, w.laneKey); }
  }

  /** Every lane, after these records were read: it has a live workflow exactly when an odd number of live
      records was read for it, and then it is the last of them. */
  ghost predicate OddOnesOwn(world: World, recs: seq<Workflow>, b: Book) {
    forall lane ::
      var live := LiveOn(world, recs, lane);
      Parity(live, b, lane) && (NoneLive(b, lane) <==> |live| % 2 == 0)
  }

  lemma ParityDecides(live: seq<Workflow>, b: Book, lane: string)
    requires Parity(live, b, lane) && forall w <- live :: !w.Historical() && w.laneKey == lane
    ensures NoneLive(b, lane) <==> |live| % 2 == 0
  {
    if |live| % 2 == 1 { assert live[|live| - 1] in live; }
  }

  lemma NothingOwns(world: World, b: Book)
    requires b.workflows == map[]
    ensures OddOnesOwn(world, [], b)
  {}

  lemma LoadKeepsOdd(world: World, recs: seq<Workflow>, w: Workflow, a: Book, b: Book)
    requires LanesOwned(a) && OddOnesOwn(world, recs, a)
    requires if ValidWorkflow(world, w) then LoadsOne(world, a, b, w) && w.id !in a.workflows else b == a
    ensures OddOnesOwn(world, recs + [w], b)
  {
    hide LanesOwned, LoadsOne, ValidWorkflow, Parity, NoneLive, LiveOn;
    forall lane
      ensures Parity(LiveOn(world, recs + [w], lane), b, lane)
      ensures NoneLive(b, lane) <==> |LiveOn(world, recs + [w], lane)| % 2 == 0
    {
      var live := LiveOn(world, recs, lane);
      assert Parity(live, a, lane) && (NoneLive(a, lane) <==> |live| % 2 == 0);
      if ValidWorkflow(world, w) {
        LoadKeepsParity(world, recs, w, a, b, lane);
        LiveOnes(world, recs + [w], lane);
        ParityDecides(LiveOn(world, recs + [w], lane), b, lane);
      } else {
        LiveMore(world, recs, w, lane);
        assert LiveOn(world, recs + [w], lane) == LiveOn(world, recs, lane);
      }
    }
  }

  // --- a whole reload ---

  /** The reload of a recoverable journal: live workflows are as they were and own their lanes. */
  ghost predicate Restored(recs: seq<Workflow>, b: Book) {
    forall k | 0 <= k < |recs| && !recs[k].Historical() ::
      && recs[k].id in b.workflows && b.workflows[recs[k].id] == recs[k]
      && recs[k].laneKey in b.byLane && b.byLane[recs[k].laneKey] == recs[k].id
  }

  lemma LoadedRestores(recs: seq<Workflow>, b: Book)
    requires LanesOwned(b) && Loaded(recs, |recs|, b)
    ensures Restored(recs, b)
  {
    hide Among;
  }

  lemma SoundDuplicate(world: World, a: Workflow, b: Workflow)
    requires Sound(world, a) && SameOrDuplicate(a, b)
    ensures Sound(world, b)
  {
    hide LastOf, ValidId, OnLane, Order;
  }

  lemma SoundBudget(world: World, w: Workflow, p: Phase)
    requires Sound(world, w)
    ensures Budget(w, p) >= 0
  {
    hide LastOf, ValidId, OnLane, Order, DoneFrom;
    if p == w.phase {
      assert w.history[..|w.history| - 1] + [w.history[|w.history| - 1]] == w.history;
      LastOfAppend(w.history[..|w.history| - 1], w.history[|w.history| - 1], p);
    }
  }

  lemma LoadedGood(world: World, recs: seq<Workflow>, b: Book)
    requires Recoverable(world, recs) && Loaded(recs, |recs|, b) && b.spawned == []
    requires AllWritable(world) ==> Synced(recs, |recs|, b) && AlwaysSafe(world, b)
    ensures Good(world, b)
  {
    hide Sound, Budget, SameOrDuplicate, AllWritable, AlwaysSafe;
    forall id | id in b.workflows ensures Sound(world, b.workflows[id]) && Paid([], b.workflows[id]) {
      assert Among(recs, |recs|, id);
      var k :| 0 <= k < |recs| && recs[k].id == id;
      SoundDuplicate(world, recs[k], b.workflows[id]);
      forall p ensures SpawnsOf([], b.workflows[id].id, p) <= Budget(b.workflows[id], p) {
        SoundBudget(world, b.workflows[id], p);
      }
    }
    if AllWritable(world) {
      forall id | id in b.journal ensures id in b.workflows {
        assert Among(recs, |recs|, id);
        var k :| 0 <= k < |recs| && recs[k].id == id;
      }
    }
  }

  // --- crash and restart ---

  /** A safe journal is recoverable, in whatever order its records are read, and none is dropped. */
  lemma SafeIsRecoverable(world: World, journal: map<string, Workflow>, recs: seq<Workflow>)
    requires SafeJournal(world, journal) && Lists(journal, recs)
    ensures Recoverable(world, recs)
    ensures forall i | 0 <= i < |recs| :: ValidWorkflow(world, recs[i])
  {
    hide Sound, ValidWorkflow;
    forall i | 0 <= i < |recs| ensures ValidWorkflow(world, recs[i]) {
      SoundIsValid(world, recs[i]);
    }
  }

  /** Crash anywhere: as long as the journal takes every write, what it held after any one of them is
      accepted whole by a restart, and the reload, in any order, makes each live workflow the owner of its
      lane again, the same in every field. */
  lemma EveryCrashRecovers(world: World, b: Book, i: nat, recs: seq<Workflow>, c: Book, id: string)
    requires Good(world, b) && AllWritable(world) && i < |b.written| && Lists(b.written[i], recs)
    requires Recoverable(world, recs) ==> Restored(recs, c)
    requires id in b.written[i]
    ensures ValidWorkflow(world, b.written[i][id])
    ensures !b.written[i][id].Historical() ==>
              && id in c.workflows && c.workflows[id] == b.written[i][id]
              && b.written[i][id].laneKey in c.byLane && c.byLane[b.written[i][id].laneKey] == id
  {
    hide Sound, Paid, Durable, AllWritable, Recoverable, ValidWorkflow, SafeJournal;
    SafeIsRecoverable(world, b.written[i], recs);
    var k :| 0 <= k < |recs| && recs[k].id == id;
  }

  /** What a crash leaves can be read back. */
  lemma CrashRecoverable(world: World, b: Book, i: nat, recs: seq<Workflow>)
    requires Good(world, b) && AllWritable(world) && i < |b.written| && Lists(b.written[i], recs)
    ensures Recoverable(world, recs) && DistinctIds(recs)
  {
    hide Sound, Paid, Durable, AllWritable, SafeJournal, ValidWorkflow;
    SafeIsRecoverable(world, b.written[i], recs);
  }

  /** Nothing that matters differs. */
  predicate SameLife(a: Workflow, b: Workflow) {
    && a.id == b.id && a.laneKey == b.laneKey && a.phase == b.phase && a.status == b.status && a.history == b.history
    && a.child == b.child && a.decision == b.decision && a.evidence == b.evidence
  }

  /** Between calls the journal says what memory says, so a restart resumes each live workflow with the same
      phase, status and history. */
  lemma RestartRestores(world: World, b: Book, recs: seq<Workflow>, c: Book, id: string)
    requires LanesOwned(b) && Good(world, b) && AllWritable(world) && Lists(b.journal, recs) && Restored(recs, c)
    requires id in b.workflows && !b.workflows[id].Historical()
    ensures id in c.workflows && SameLife(b.workflows[id], c.workflows[id])
    ensures b.workflows[id].laneKey in c.byLane && c.byLane[b.workflows[id].laneKey] == id
  {
    hide Sound, Core, Paid, AllWritable, AlwaysSafe, LanesOwned;
    assert Journaled(b.journal, id, b.workflows[id]);
    var k :| 0 <= k < |recs| && recs[k].id == id;
    CoreFields(b.workflows[id], recs[k]);
  }

  // --- the reload's own writes ---

  /** Refusing a historical record leaves the journal safe. */
  lemma SafeRefused(world: World, journal: map<string, Workflow>, w: Workflow, at: int)
    requires SafeJournal(world, journal) && w.id in journal && journal[w.id] == w && w.Historical()
    ensures SafeJournal(world, journal[w.id := Duplicate(w, at)])
  {
    hide Sound;
    SoundDuplicate(world, w, Duplicate(w, at));
  }

  /** The journal is safe, was always, and knows the loaded records and w as they are. */
  ghost predicate SafeToLoad(world: World, b: Book, w: Workflow) {
    && AllWritable(world) && SafeJournal(world, b.journal) && AlwaysSafe(world, b)
    && w.id in b.journal && b.journal[w.id] == w
    && (forall id | id in b.workflows :: id in b.journal && b.journal[id] == b.workflows[id])
    && (Fits(b, w) || w.Historical())
  }

  ghost predicate StaysSafe(world: World, b: Book) {
    SafeJournal(world, b.journal) && AlwaysSafe(world, b)
  }

  /** Two refusals, one write after the other. */
  lemma RefusalsStaySafe(world: World, a: Book, b: Book, owner: Workflow, w: Workflow, at: int, at': int)
    requires SafeToLoad(world, a, w) && owner.id in a.workflows && a.workflows[owner.id] == owner && owner.id != w.id
    requires owner.Historical() && w.Historical()
    requires var first := a.journal[owner.id := Duplicate(owner, at)];
             && b.journal == first[w.id := Duplicate(w, at')]
             && b.written == a.written + [first] + [b.journal]
    ensures StaysSafe(world, b)
  {
    hide AllWritable, SafeJournal, Duplicate, Fits;
    var first := a.journal[owner.id := Duplicate(owner, at)];
    SafeRefused(world, a.journal, owner, at);
    SafeRefused(world, first, w, at');
  }

  lemma RecoverableLoadsSafely(world: World, recs: seq<Workflow>, i: nat, b: Book)
    requires i < |recs| && Recoverable(world, recs) && LanesOwned(b) && Loaded(recs, i, b) && Synced(recs, i, b)
    requires AllWritable(world) && StaysSafe(world, b)
    ensures SafeToLoad(world, b, recs[i])
  {
    hide Sound, AllWritable, LanesOwned, Recoverable, Loaded, SafeJournal, AlwaysSafe;
    if !Fits(b, recs[i]) { OnlyHistoricalCollide(world, recs, i, b); }
  }

  lemma ListedIsSafe(world: World, recs: seq<Workflow>, journal: map<string, Workflow>)
    requires Recoverable(world, recs) && Lists(journal, recs)
    ensures SafeJournal(world, journal)
  {
    hide Sound;
    forall id | id in journal ensures exists i :: 0 <= i < |recs| && recs[i].id == id && recs[i] == journal[id] {
      var i :| 0 <= i < |recs| && recs[i].id == id;
    }
  }
}
