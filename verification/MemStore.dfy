/** The in-memory run store (backend/infra/memstore.go). Every method is one critical section of the
    store's mutex, so each is one atomic step of the engine. The functions give the map a call leaves
    behind; the class updates the map in place. */
module MemStore {
  import opened Wrappers
  import opened Runs

  type RunMap = map<string, Run>

  /** Records are filed under their own id. */
  ghost predicate Keyed(runs: RunMap) {
    forall id <- runs :: runs[id].id == id
  }

  /** No running run of this kind holds the lane; nothing ever holds the empty lane. */
  ghost predicate LaneFree(runs: RunMap, kind: string, laneKey: string) {
    laneKey == "" || forall id <- runs :: !Holds(runs[id], kind, laneKey)
  }

  /** At most one running build on each non-empty lane. */
  ghost predicate LanesExclusive(runs: RunMap) {
    forall a, b | a in runs && b in runs && a != b ::
      forall lane | lane != "" && Holds(runs[a], "build", lane) :: !Holds(runs[b], "build", lane)
  }

  function FinalizedRun(r: Run, exitCode: int): Run {
    r.(exitCode := Some(exitCode), status := if exitCode == 0 then Done else Errored)
  }

  /** First write wins: only a running record takes the exit code. */
  function Finalized(runs: RunMap, id: string, exitCode: int): RunMap {
    if id in runs && runs[id].IsRunning() then runs[id := FinalizedRun(runs[id], exitCode)] else runs
  }

  function Updated(runs: RunMap, id: string, change: Run -> Run): RunMap {
    if id in runs then runs[id := change(runs[id])] else runs
  }

  class MemStore {
    var runs: RunMap

    constructor ()
      ensures runs == map[]
    { runs := map[]; }

    method Put(run: Run)
      modifies this
      ensures runs == old(runs)[run.id := run]
    {
      runs := runs[run.id := run];
    }

    method Get(id: string) returns (r: Option<Run>)
      ensures r.Some? <==> id in runs
      ensures r.Some? ==> r.value == runs[id]
    {
      if id in runs { return Some(runs[id]); }
      r := None;
    }

    /** Every record once, in no particular order. */
    method List() returns (out: seq<Run>)
      requires Keyed(runs)
      ensures forall r :: r in out <==> r.id in runs && runs[r.id] == r
      ensures forall i, j | 0 <= i < j < |out| :: out[i].id != out[j].id
    {
      out := [];
      var rest := runs.Keys;
      while rest != {}
        invariant rest <= runs.Keys
        invariant forall r :: r in out <==> r.id in runs && r.id !in rest && runs[r.id] == r
        invariant forall i, j | 0 <= i < j < |out| :: out[i].id != out[j].id
        decreases rest
      {
        var id :| id in rest;
        assert forall i | 0 <= i < |out| :: out[i] in out;
        out := out + [runs[id]];
        rest := rest - {id};
      }
    }

    method SetPid(id: string, pid: int)
      modifies this
      ensures runs == Updated(old(runs), id, (r: Run) => r.(pid := Some(pid)))
    {
      if id in runs { runs := runs[id := runs[id].(pid := Some(pid))]; }
    }

    method Delete(id: string)
      modifies this
      ensures runs == old(runs) - {id}
    {
      runs := runs - {id};
    }

    /** Reports whether this call took the record out of running. */
    method Finalize(id: string, exitCode: int) returns (transitioned: bool)
      modifies this
      ensures runs == Finalized(old(runs), id, exitCode)
      ensures transitioned <==> id in old(runs) && old(runs)[id].IsRunning()
    {
      if id !in runs || !runs[id].IsRunning() { return false; }
      var r := runs[id];
      r := r.(exitCode := Some(exitCode));
      if exitCode == 0 {
        r := r.(status := Done);
      } else {
        r := r.(status := Errored);
      }
      runs := runs[id := r];
      transitioned := true;
    }

    /** Under one lock: the id of a running run of the kind on the lane, or the run put. */
    method ReserveKind(kind: string, laneKey: string, run: Run) returns (existing: string, reserved: bool)
      requires Keyed(runs)
      modifies this
      ensures reserved <==> LaneFree(old(runs), kind, laneKey)
      ensures reserved ==> runs == old(runs)[run.id := run] && existing == ""
      ensures !reserved ==> runs == old(runs) && existing in runs && Holds(runs[existing], kind, laneKey)
    {
      if laneKey != "" {
        var rest := runs.Keys;
        while rest != {}
          invariant rest <= runs.Keys && runs == old(runs)
          invariant forall id | id in runs && id !in rest :: !Holds(runs[id], kind, laneKey)
          decreases rest
        {
          var id :| id in rest;
          if Holds(runs[id], kind, laneKey) { return runs[id].id, false; }
          rest := rest - {id};
        }
      }
      runs := runs[run.id := run];
      return "", true;
    }

    method ReserveBuild(laneKey: string, run: Run) returns (existing: string, reserved: bool)
      requires Keyed(runs)
      modifies this
      ensures reserved <==> LaneFree(old(runs), "build", laneKey)
      ensures reserved ==> runs == old(runs)[run.id := run]
      ensures !reserved ==> runs == old(runs) && existing in runs && Holds(runs[existing], "build", laneKey)
    {
      existing, reserved := ReserveKind("build", laneKey, run);
    }

    method ReserveInit(laneKey: string, run: Run) returns (existing: string, reserved: bool)
      requires Keyed(runs)
      modifies this
      ensures reserved <==> LaneFree(old(runs), "init", laneKey)
      ensures reserved ==> runs == old(runs)[run.id := run]
      ensures !reserved ==> runs == old(runs) && existing in runs && Holds(runs[existing], "init", laneKey)
    {
      existing, reserved := ReserveKind("init", laneKey, run);
    }

    /** One read-modify-write. `seen` is the record as the change saw it, which is what the source's closures
        report through the variables they capture. */
    method Update(id: string, change: Run -> Run) returns (found: bool, seen: Option<Run>)
      modifies this
      ensures runs == Updated(old(runs), id, change)
      ensures found <==> id in old(runs)
      ensures seen == if id in old(runs) then Some(old(runs)[id]) else None
    {
      if id !in runs { return false, None; }
      seen := Some(runs[id]);
      runs := runs[id := change(runs[id])];
      found := true;
    }
  }

  /** Two running builds hold the lane. */
  ghost predicate Share(runs: RunMap, a: string, b: string, lane: string) {
    && a != b && lane != "" && a in runs && b in runs
    && Holds(runs[a], "build", lane) && Holds(runs[b], "build", lane)
  }

  /** No two builds have come to share a lane. */
  ghost predicate NoNewPair(runs: RunMap, after: RunMap) {
    forall a, b, lane | Share(after, a, b, lane) :: Share(runs, a, b, lane)
  }

  lemma NoPairAtAll(runs: RunMap, after: RunMap)
    requires LanesExclusive(runs) && NoNewPair(runs, after)
    ensures LanesExclusive(after)
  {
    forall a, b, lane | a in after && b in after && a != b && lane != "" && Holds(after[a], "build", lane)
      ensures !Holds(after[b], "build", lane)
    {
      assert Share(after, a, b, lane) ==> Share(runs, a, b, lane);
    }
  }

  /** A reserve brings nobody onto a held lane, whatever run it puts and whether it replaces a record. */
  lemma ReserveKeepsLanes(runs: RunMap, laneKey: string, run: Run)
    requires LaneFree(runs, "build", laneKey) && LaneKeyOf(run.meta) == laneKey
    ensures NoNewPair(runs, runs[run.id := run])
  {
    forall a, b, lane | Share(runs[run.id := run], a, b, lane) ensures Share(runs, a, b, lane) {}
  }

  /** A change that revives no run and moves it to no lane brings nobody onto a held lane. */
  lemma ChangeKeepsLanes(runs: RunMap, id: string, r: Run)
    requires id in runs && r.meta == runs[id].meta && (r.IsRunning() ==> runs[id].IsRunning())
    ensures NoNewPair(runs, runs[id := r])
  {
    forall a, b, lane | Share(runs[id := r], a, b, lane) ensures Share(runs, a, b, lane) {}
  }

  lemma DeleteKeepsLanes(runs: RunMap, id: string)
    ensures NoNewPair(runs, runs - {id})
  {}

  /** Whatever two finishers do in whatever order, the first exit code stays. */
  lemma FirstFinalizeWins(runs: RunMap, id: string, first: int, second: int)
    requires id in runs && runs[id].IsRunning()
    ensures Finalized(Finalized(runs, id, first), id, second) == Finalized(runs, id, first)
    ensures Finalized(runs, id, first)[id].exitCode == Some(first)
  {}
}
