/** The critical sections of the build engine as they update the store in place. Each leaves the store as
    the step of the state machine says (`s` is any engine state over this store, `t` the thread). */
module BuildSections {
  import opened Wrappers
  import opened Runs
  import opened ResumePlan
  import opened BuildClass
  import opened Ndjson
  import opened BuildEngine
  import MemStore

  class BuildEngineService {
    const store: MemStore.MemStore
    const cfg: Config
    const reader: Reader

    constructor (store: MemStore.MemStore, cfg: Config, reader: Reader)
      ensures this.store == store && this.cfg == cfg && this.reader == reader
    {
      this.store, this.cfg, this.reader := store, cfg, reader;
    }

    ghost predicate Over(s: State, t: nat)
      reads this, store
    {
      s.runs == store.runs && s.cfg == cfg && s.reader == reader && t < |s.threads|
    }

    method ReserveLane(run: Run, caller: Caller, o: Oracle, ghost s: State, ghost t: nat)
      returns (started: bool, holder: string)
      requires Over(s, t) && o.writable && MemStore.Keyed(store.runs)
      modifies store
      ensures started ==> store.runs == ReserveStep(s, t, run, caller, o).runs
                          && ReserveStep(s, t, run, caller, o).threads[t] == Start(run, caller)
      ensures !started ==> var s' := ReserveStep(s, t, run, caller, o.(existing := holder));
                           store.runs == s'.runs && s'.threads[t] == AfterReserve(caller, holder)
    {
      hide AfterReserve, AfterFailure, Counted, LaneKeyOf, Holds, MemStore.LaneFree;
      holder, started := store.ReserveBuild(LaneKeyOf(run.meta), run);
    }

    method BeginFinalizing(id: string, ghost exit: ExitNote, ghost s: State, ghost t: nat) returns (started: bool)
      requires Over(s, t)
      modifies store
      ensures store.runs == BeginStep(s, t, id, exit).runs
      ensures BeginStep(s, t, id, exit).threads[t] == if started then Finalize(id, exit) else Finished
    {
      var _, seen := store.Update(id, (r: Run) => if r.status == Running then r.(finalizing := true) else r);
      started := seen.Some? && seen.value.IsRunning();
    }

    method FinalizeRun(id: string, exit: ExitNote, ghost s: State, ghost t: nat) returns (transitioned: bool)
      requires Over(s, t)
      modifies store
      ensures store.runs == FinalizeStep(s, t, id, exit).runs
      ensures FinalizeStep(s, t, id, exit).threads[t] == if transitioned then ReadFinal(id, exit) else EndFinalizing(id)
    {
      transitioned := store.Finalize(id, exit.code);
    }

    method EndOfFinalizing(id: string, ghost s: State, ghost t: nat)
      requires Over(s, t)
      modifies store
      ensures store.runs == EndStep(s, t, id).runs
    {
      var _, _ := store.Update(id, (r: Run) => r.(finalizing := false));
    }

    /** Reports whether this call is the one that pushes. */
    method MaybePushOnComplete(run: Run, lines: seq<ParsedLine>, now: int, o: Oracle, ghost s: State, ghost t: nat)
      returns (pushed: bool)
      requires Over(s, t) && o.lines == lines && o.now == now
      modifies store
      ensures store.runs == PushIfComplete(s, run, o).runs
      ensures PushIfComplete(s, run, o).pushes
              == if pushed then s.pushes[run.id := Count(s.pushes, run.id) + 1] else s.pushes
    {
      hide IsBuildComplete, FinalText, Count;
      pushed := false;
      if !cfg.autoPush || KindOf(run) != "build" || run.cwd.None? { return; }
      var text := FinalSpokenText(reader, lines);
      if !IsBuildComplete(text) { return; }
      var _, seen := store.Update(run.id, (r: Run) => if r.pushedAt.None? then r.(pushedAt := Some(now)) else r);
      pushed := seen.Some? && seen.value.pushedAt.None?;
    }

    /** scheduleResume: armed unless a Stop came first. */
    method ScheduleResume(id: string, succ: string, r: Resume, now: int, o: Oracle, ghost s: State, ghost t: nat)
      returns (armed: bool)
      requires Over(s, t) && o.now == now
      modifies store
      ensures store.runs == ArmStep(s, t, id, succ, r, o).runs
      ensures ArmStep(s, t, id, succ, r, o).threads
              == s.threads[t := EndFinalizing(id)] + (if armed then [Clear(id, [])] else [])
    {
      var p := Pending(succ, r, now);
      var _, seen := store.Update(id, (x: Run) => if x.stopRequested then x else x.(pendingResume := Some(p)));
      armed := seen.Some? && !seen.value.stopRequested;
    }

    /** The fire-once test-and-clear. */
    method TestAndClear(id: string, ghost rest: seq<string>, ghost s: State, ghost t: nat)
      returns (won: Option<PendingResume>)
      requires Over(s, t)
      modifies store
      ensures store.runs == ClearStep(s, t, id, rest).runs
      ensures ClearStep(s, t, id, rest).threads[t] == if won.Some? then ReadPred(id, won.value, rest) else Next(rest)
    {
      hide Next;
      won := None;
      var _, seen := store.Update(id, (r: Run) => if r.pendingResume.Some? then r.(pendingResume := None) else r);
      if seen.Some? { won := seen.value.pendingResume; }
    }

    method RearmOrPark(pred: string, p: PendingResume, now: int, ghost rest: seq<string>, o: Oracle, ghost s: State,
                       ghost t: nat)
      requires Over(s, t) && o.now == now
      modifies store
      ensures store.runs == RearmStep(s, t, pred, p, rest, o).runs
    {
      hide Next;
      var attempts := p.spawnAttempts + 1;
      var np := p.(spawnAttempts := attempts, resumeAt := now + cfg.resumeBaseMs);
      var _, _ := store.Update(pred, (r: Run) => if attempts <= MAX_SPAWN_RETRIES then r.(pendingResume := Some(np)) else r);
    }

    /** Stop on a running build, when nothing comes between its store calls. */
    method StopRunning(id: string, ghost s: State, ghost t: nat)
      requires Over(s, t)
      modifies store
      ensures store.runs == StopFinalizeStep(StopFlagStep(s, t, id, StopFinalize(id)), t, id).runs
    {
      var _, _ := store.Update(id, (r: Run) => r.(stopRequested := true, pendingResume := None));
      var _ := store.Finalize(id, 143);
    }
  }
}
