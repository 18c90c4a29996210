/** The stall watchdog (sweepStalls and sweepRun of backend/usecase/buildengine.go): a build whose output
    does not grow is asked to stop, and killed when it does not. */
module Watchdog {
  import opened Wrappers
  import opened Runs
  import opened MemStore

  const STALL_SIGKILL_GRACE_MS: int := 30_000

  /** What a sweep finds of a run: whether its process lives and how long its output is. */
  datatype Look = Look(alive: bool, size: int)

  datatype Did = Nothing | Grew | Termed | Killed

  /** Signals sent to process groups, in order. */
  datatype Sent = Sent(id: string, pid: int, hard: bool, at: int)

  predicate Watchable(r: Run) {
    r.IsRunning() && KindOf(r) == "build" && r.pid.Some? && r.pid.value > 1
  }

  function Verdict(stallMs: int, r: Run, now: int, look: Look): Did {
    if !Watchable(r) || !look.alive then Nothing
    else if look.size > r.lastOutSize then Grew
    else if r.stallKilledAt.Some? then
      if now - r.stallKilledAt.value < STALL_SIGKILL_GRACE_MS then Nothing else Killed
    else if now - r.lastActivityAt < stallMs then Nothing
    else Termed
  }

  /** The record after a sweep did this. */
  function Marked(r: Run, did: Did, now: int, look: Look): Run {
    match did
    case Nothing => r
    case Grew => r.(lastOutSize := look.size, lastActivityAt := now, stallKilledAt := None)
    case Termed => r.(stallKilledAt := Some(now))
    case Killed => r.(stallKilledAt := Some(now))
  }

  function MarkedIn(runs: RunMap, id: string, did: Did, now: int, look: Look): RunMap {
    if id in runs then runs[id := Marked(runs[id], did, now, look)] else runs
  }

  function Signals(r: Run, did: Did, now: int): seq<Sent> {
    if (did == Termed || did == Killed) && r.pid.Some? then [Sent(r.id, r.pid.value, did == Killed, now)] else []
  }

  /** What one sweep makes of the runs in `seen`. */
  function Swept(stallMs: int, runs: RunMap, seen: set<string>, now: int, looks: string -> Look): RunMap {
    map id | id in runs ::
      if id in seen then Marked(runs[id], Verdict(stallMs, runs[id], now, looks(id)), now, looks(id)) else runs[id]
  }

  lemma SweptOne(stallMs: int, runs: RunMap, seen: set<string>, id: string, now: int, looks: string -> Look)
    requires id in runs && id !in seen
    ensures MarkedIn(Swept(stallMs, runs, seen, now, looks), id, Verdict(stallMs, runs[id], now, looks(id)), now, looks(id))
            == Swept(stallMs, runs, seen + {id}, now, looks)
    ensures Swept(stallMs, runs, seen, now, looks)[id] == runs[id]
  {
    hide Marked, Verdict;
  }

  /** The signals of a sweep that looks at these runs in this order. */
  function AllSignals(stallMs: int, order: seq<Run>, now: int, looks: string -> Look): seq<Sent> {
    if order == [] then []
    else
      var r := order[|order| - 1];
      AllSignals(stallMs, order[..|order| - 1], now, looks) + Signals(r, Verdict(stallMs, r, now, looks(r.id)), now)
  }

  lemma NoSignals(stallMs: int, now: int, looks: string -> Look)
    ensures AllSignals(stallMs, [], now, looks) == []
  {}

  lemma AllSignalsStep(start: seq<Sent>, stallMs: int, order: seq<Run>, i: nat, now: int, looks: string -> Look)
    requires i < |order|
    ensures start + AllSignals(stallMs, order[..i], now, looks)
            + Signals(order[i], Verdict(stallMs, order[i], now, looks(order[i].id)), now)
            == start + AllSignals(stallMs, order[..i + 1], now, looks)
  {
    hide Signals, Verdict;
    assert order[..i + 1][..i] == order[..i];
  }

  /** Every record once. */
  ghost predicate Lists(runs: RunMap, order: seq<Run>) {
    && (forall r :: r in order <==> r.id in runs && runs[r.id] == r)
    && (forall i, j | 0 <= i < j < |order| :: order[i].id != order[j].id)
  }

  class Watchdog {
    const store: MemStore
    const stallMs: int
    var sent: seq<Sent>

    constructor (store: MemStore, stallMs: int)
      ensures this.store == store && this.stallMs == stallMs && sent == []
    {
      this.store := store;
      this.stallMs := stallMs;
      sent := [];
    }

    /** One run of a sweep. `run` is the sweep's snapshot; the store may have moved on since. */
    method SweepRun(run: Run, now: int, look: Look)
      modifies this, store
      ensures var did := Verdict(stallMs, run, now, look);
              && store.runs == MarkedIn(old(store.runs), run.id, did, now, look)
              && sent == old(sent) + Signals(run, did, now)
    {
      var did := Verdict(stallMs, run, now, look);
      if !run.IsRunning() || KindOf(run) != "build" { return; }
      if run.pid.None? || run.pid.value <= 1 || !look.alive { return; }
      var t := now;
      if look.size > run.lastOutSize {
        var _, _ := store.Update(run.id, (r: Run) =>
          r.(lastOutSize := look.size, lastActivityAt := now, stallKilledAt := None));
        return;
      }
      if run.stallKilledAt.Some? {
        if now - run.stallKilledAt.value < STALL_SIGKILL_GRACE_MS { return; }
        var _, _ := store.Update(run.id, (r: Run) => r.(stallKilledAt := Some(t)));
        sent := sent + [Sent(run.id, run.pid.value, true, now)];
        return;
      }
      if now - run.lastActivityAt < stallMs { return; }
      var _, _ := store.Update(run.id, (r: Run) => r.(stallKilledAt := Some(t)));
      sent := sent + [Sent(run.id, run.pid.value, false, now)];
    }

    /** One sweep with nobody else at work: every run is looked at once, in some order. */
    method SweepStalls(now: int, looks: string -> Look) returns (ghost order: seq<Run>)
      requires Keyed(store.runs)
      modifies this, store
      ensures stallMs <= 0 ==> store.runs == old(store.runs) && sent == old(sent)
      ensures stallMs > 0 ==>
                && Lists(old(store.runs), order)
                && store.runs == Swept(stallMs, old(store.runs), old(store.runs).Keys, now, looks)
                && sent == old(sent) + AllSignals(stallMs, order, now, looks)
    {
      hide Verdict, Marked, MarkedIn, Signals, AllSignals;
      order := [];
      if stallMs <= 0 { return; }
      var runs := store.List();
      order := runs;
      ghost var seen: set<string> := {};
      NoSignals(stallMs, now, looks);
      assert store.runs == Swept(stallMs, old(store.runs), seen, now, looks);
      for i := 0 to |runs|
        invariant store.runs == Swept(stallMs, old(store.runs), seen, now, looks)
        invariant seen <= old(store.runs).Keys && forall k | 0 <= k < |runs| :: runs[k].id in seen <==> k < i
        invariant sent == old(sent) + AllSignals(stallMs, runs[..i], now, looks)
      {
        var run := runs[i];
        assert run in runs;
        SweptOne(stallMs, old(store.runs), seen, run.id, now, looks);
        SweepRun(run, now, looks(run.id));
        seen := seen + {run.id};
        AllSignalsStep(old(sent), stallMs, runs, i, now, looks);
      }
      assert runs[..|runs|] == runs;
      forall id | id in old(store.runs) ensures id in seen {
        assert old(store.runs)[id] in runs;
      }
      assert seen == old(store.runs).Keys;
    }
  }

  // --- any sequence of sweeps over one run ---

  datatype Tick = Tick(now: int, look: Look)

  /** The record after these sweeps, with nothing else writing the watchdog's fields. */
  function Watched(stallMs: int, r: Run, ticks: seq<Tick>): Run {
    if ticks == [] then r
    else
      var (before, last) := (Watched(stallMs, r, ticks[..|ticks| - 1]), ticks[|ticks| - 1]);
      Marked(before, Verdict(stallMs, before, last.now, last.look), last.now, last.look)
  }

  /** What the k-th sweep did. */
  function DidAt(stallMs: int, r: Run, ticks: seq<Tick>, k: nat): Did
    requires k < |ticks|
  {
    Verdict(stallMs, Watched(stallMs, r, ticks[..k]), ticks[k].now, ticks[k].look)
  }

  /** A run just started, or found alive at boot: its baseline is its start or the boot, no signal yet. */
  ghost predicate Begins(r: Run, ticks: seq<Tick>) {
    && r.stallKilledAt.None? && Watchable(r)
    && (forall k | 0 <= k < |ticks| :: r.lastActivityAt <= ticks[k].now)
    && (forall j, k | 0 <= j < k < |ticks| :: ticks[j].now <= ticks[k].now)
  }

  ghost predicate NoGrowthBetween(stallMs: int, r: Run, ticks: seq<Tick>, j: int, k: int) {
    forall i | j < i < k && 0 <= i < |ticks| :: DidAt(stallMs, r, ticks, i) != Grew
  }

  /** The j-th sweep sent a signal and no growth was seen from then up to the k-th. */
  ghost predicate SignalledAt(stallMs: int, r: Run, ticks: seq<Tick>, j: int, k: int) {
    && 0 <= j < k <= |ticks| && (DidAt(stallMs, r, ticks, j) == Termed || DidAt(stallMs, r, ticks, j) == Killed)
    && NoGrowthBetween(stallMs, r, ticks, j, k)
  }

  /** The quiet time before sweep k is at least d: since the baseline and since every growth seen. */
  ghost predicate QuietFor(stallMs: int, r: Run, ticks: seq<Tick>, k: nat, d: int)
    requires k < |ticks|
  {
    && ticks[k].now - r.lastActivityAt >= d
    && (forall i | 0 <= i < k :: DidAt(stallMs, r, ticks, i) == Grew ==> ticks[k].now - ticks[i].now >= d)
  }

  /** The record remembers the last growth, or the baseline, and the last signal since. */
  ghost predicate Remembers(stallMs: int, r: Run, ticks: seq<Tick>, k: nat)
    requires k <= |ticks|
  {
    var now := Watched(stallMs, r, ticks[..k]);
    && Watchable(now)
    && (now.lastActivityAt == r.lastActivityAt
        || exists i :: 0 <= i < k && DidAt(stallMs, r, ticks, i) == Grew && now.lastActivityAt == ticks[i].now)
    && r.lastActivityAt <= now.lastActivityAt
    && (forall i | 0 <= i < k :: DidAt(stallMs, r, ticks, i) == Grew ==> ticks[i].now <= now.lastActivityAt)
    && (now.stallKilledAt.None? ==> forall j :: !SignalledAt(stallMs, r, ticks, j, k))
    && (now.stallKilledAt.Some? ==>
          && (exists j :: SignalledAt(stallMs, r, ticks, j, k) && now.stallKilledAt.value == ticks[j].now)
          && (forall j | SignalledAt(stallMs, r, ticks, j, k) :: ticks[j].now <= now.stallKilledAt.value))
  }

  lemma OneMoreSweep(stallMs: int, r: Run, ticks: seq<Tick>, k: nat)
    requires k < |ticks|
    ensures Watched(stallMs, r, ticks[..k + 1])
            == Marked(Watched(stallMs, r, ticks[..k]), DidAt(stallMs, r, ticks, k), ticks[k].now, ticks[k].look)
  {
    assert ticks[..k + 1][..k] == ticks[..k];
  }

  /** A signal still counts after one more sweep unless that sweep saw growth, which clears all. */
  lemma SignalsAfter(stallMs: int, r: Run, ticks: seq<Tick>, k: nat, next: nat)
    requires k < |ticks| && next == k + 1
    ensures DidAt(stallMs, r, ticks, k) == Grew ==> forall j :: !SignalledAt(stallMs, r, ticks, j, next)
    ensures DidAt(stallMs, r, ticks, k) != Grew ==>
              forall j | j != k :: SignalledAt(stallMs, r, ticks, j, next) <==> SignalledAt(stallMs, r, ticks, j, k)
    ensures SignalledAt(stallMs, r, ticks, k, next)
            <==> DidAt(stallMs, r, ticks, k) == Termed || DidAt(stallMs, r, ticks, k) == Killed
  {
    hide DidAt;
    forall j | j != k && DidAt(stallMs, r, ticks, k) != Grew
      ensures SignalledAt(stallMs, r, ticks, j, next) <==> SignalledAt(stallMs, r, ticks, j, k)
    {
      if SignalledAt(stallMs, r, ticks, j, k) {
        assert NoGrowthBetween(stallMs, r, ticks, j, next);
      }
      if SignalledAt(stallMs, r, ticks, j, next) {
        assert NoGrowthBetween(stallMs, r, ticks, j, k);
      }
    }
  }

  lemma {:induction false} Remembered(stallMs: int, r: Run, ticks: seq<Tick>, k: nat)
    requires Begins(r, ticks) && k <= |ticks|
    ensures Remembers(stallMs, r, ticks, k)
    decreases k
  {
    hide DidAt, SignalledAt, Watched;
    if k == 0 {
      StartWatched(stallMs, r, ticks);
    } else {
      Remembered(stallMs, r, ticks, k - 1);
      RemembersNext(stallMs, r, ticks, k - 1);
    }
  }

  lemma StartWatched(stallMs: int, r: Run, ticks: seq<Tick>)
    ensures Watched(stallMs, r, ticks[..0]) == r
    ensures forall j :: !SignalledAt(stallMs, r, ticks, j, 0)
  {}

  lemma RemembersNext(stallMs: int, r: Run, ticks: seq<Tick>, k: nat)
    requires Begins(r, ticks) && k < |ticks| && Remembers(stallMs, r, ticks, k)
    ensures Remembers(stallMs, r, ticks, k + 1)
  {
    hide DidAt, SignalledAt, Watched;
    OneMoreSweep(stallMs, r, ticks, k);
    SignalsAfter(stallMs, r, ticks, k, k + 1);
    SignalTimes(stallMs, r, ticks, k);
    var next := k + 1;
    if DidAt(stallMs, r, ticks, k) == Termed || DidAt(stallMs, r, ticks, k) == Killed {
      assert SignalledAt(stallMs, r, ticks, k, next);
    }
  }

  lemma SignalTimes(stallMs: int, r: Run, ticks: seq<Tick>, k: nat)
    requires Begins(r, ticks) && k < |ticks|
    ensures forall j | SignalledAt(stallMs, r, ticks, j, k) :: 0 <= j < k && ticks[j].now <= ticks[k].now
  {
    hide DidAt, NoGrowthBetween;
  }

  /** SIGTERM is sent exactly when the process lives, has not written since the last sweep, has not been
      signalled in this silence, and was silent for the whole stall window since the last growth seen and
      since its baseline. */
  lemma TermExactly(stallMs: int, r: Run, ticks: seq<Tick>, k: nat)
    requires Begins(r, ticks) && k < |ticks|
    ensures DidAt(stallMs, r, ticks, k) == Termed
            <==> && ticks[k].look.alive && DidAt(stallMs, r, ticks, k) != Grew
                 && (forall j :: !SignalledAt(stallMs, r, ticks, j, k))
                 && QuietFor(stallMs, r, ticks, k, stallMs)
  {
    hide SignalledAt, Watched;
    SignalTimes(stallMs, r, ticks, k);
    Remembered(stallMs, r, ticks, k);
  }

  /** SIGKILL is sent exactly when the process lives on in a silence in which it was signalled, the grace
      long after the last signal. */
  lemma KillExactly(stallMs: int, r: Run, ticks: seq<Tick>, k: nat)
    requires Begins(r, ticks) && k < |ticks|
    ensures DidAt(stallMs, r, ticks, k) == Killed
            <==> && ticks[k].look.alive && DidAt(stallMs, r, ticks, k) != Grew
                 && (exists j :: SignalledAt(stallMs, r, ticks, j, k))
                 && (forall j | 0 <= j < k && SignalledAt(stallMs, r, ticks, j, k) ::
                       ticks[k].now - ticks[j].now >= STALL_SIGKILL_GRACE_MS)
  {
    hide SignalledAt, Watched;
    SignalTimes(stallMs, r, ticks, k);
    Remembered(stallMs, r, ticks, k);
  }

  /** Every kill follows a SIGTERM of the watchdog by the grace at least, with no growth seen between. */
  lemma {:induction false} KillFollowsTerm(stallMs: int, r: Run, ticks: seq<Tick>, k: nat) returns (j: nat)
    requires Begins(r, ticks) && k < |ticks| && DidAt(stallMs, r, ticks, k) == Killed
    ensures j < k && DidAt(stallMs, r, ticks, j) == Termed
    ensures ticks[k].now - ticks[j].now >= STALL_SIGKILL_GRACE_MS && NoGrowthBetween(stallMs, r, ticks, j, k)
    decreases k
  {
    hide DidAt;
    KillExactly(stallMs, r, ticks, k);
    var i: int :| SignalledAt(stallMs, r, ticks, i, k);
    if DidAt(stallMs, r, ticks, i) == Termed {
      j := i;
    } else {
      j := KillFollowsTerm(stallMs, r, ticks, i);
    }
  }
}
