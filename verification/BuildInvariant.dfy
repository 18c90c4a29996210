/** What every interleaving of the build engine keeps. */
module BuildInvariant {
  import opened Wrappers
  import opened Runs
  import opened ResumePlan
  import opened BuildEngine

  // --- who works on what ---

  /** The run whose one resume a thread holds or will decide on: only one thread does. */
  function ChainOf(th: Thread): Option<string> {
    match th
    case Register(run, _, _) => Some(run.id)
    case BeginFinalizing(id, _) => Some(id)
    case Finalize(id, _) => Some(id)
    case ReadFinal(id, _) => Some(id)
    case Decide(run, _) => Some(run.id)
    case Arm(id, _, _) => Some(id)
    case Reserve(_, ByFiring(pred, _, _)) => Some(pred)
    case Start(_, ByFiring(pred, _, _)) => Some(pred)
    case Undo(_, ByFiring(pred, _, _), _) => Some(pred)
    case ReadPred(pred, _, _) => Some(pred)
    case Rearm(pred, _, _) => Some(pred)
    case _ => None
  }

  /** The run a thread finalizes, from the start of its process to the end of the handshake. */
  function FinalizerOf(th: Thread): Option<string> {
    match th
    case Register(run, _, _) => Some(run.id)
    case BeginFinalizing(id, _) => Some(id)
    case Finalize(id, _) => Some(id)
    case ReadFinal(id, _) => Some(id)
    case Decide(run, _) => Some(run.id)
    case Arm(id, _, _) => Some(id)
    case EndFinalizing(id) => Some(id)
    case _ => None
  }

  /** The run a thread has reserved, or is about to, and not yet started. */
  function StarterOf(th: Thread): Option<string> {
    match th
    case Reserve(run, _) => Some(run.id)
    case Start(run, _) => Some(run.id)
    case Undo(run, _, _) => Some(run.id)
    case ReadPred(_, p, _) => Some(p.successorId)
    case Rearm(_, p, _) => Some(p.successorId)
    case Arm(_, succ, _) => Some(succ)
    case _ => None
  }

  ghost predicate Alone(threads: seq<Thread>) {
    forall i, j | 0 <= i < j < |threads| ::
      && (ChainOf(threads[i]).Some? ==> ChainOf(threads[i]) != ChainOf(threads[j]))
      && (FinalizerOf(threads[i]).Some? ==> FinalizerOf(threads[i]) != FinalizerOf(threads[j]))
  }

  // --- places in a chain ---

  predicate WithinCaps(cfg: Config, caps: Caps) {
    cfg.maxBuildResumes <= caps.depth && cfg.limitWaitMs <= caps.wait
  }

  predicate FitsRun(cfg: Config, b: Birth, r: Run) {
    && r.resumeCount == b.depth && r.firstStartedAt == b.start + b.waited && r.noProgressStreak < cfg.noProgressLimit
    && SpecOf(r) == b.spec
  }

  predicate FitsPending(cfg: Config, b: Birth, p: PendingResume) {
    p.resumeCount == b.depth && p.firstStartedAt == b.start + b.waited && p.noProgressStreak < cfg.noProgressLimit
  }

  ghost predicate BirthOk(s: State, id: string)
    requires id in s.births
  {
    var b := s.births[id];
    && b.depth <= s.caps.depth
    && match b.owner
       case AtBoot => b.root == id && b.waited == 0
       case Posted(_) => b.root == id && b.waited == 0 && b.depth == 0
       case SuccessorOf(pred) =>
         && pred in s.births && pred in s.planned
         && b.root == s.births[pred].root && b.start == s.births[pred].start && b.spec == s.births[pred].spec
         && b.depth == s.births[pred].depth + 1
         && 0 <= b.waited - s.births[pred].waited <= s.caps.wait
  }

  /** The one resume of `pred`, not spent yet: it carries its successor's place in the chain, and
      `tries` reserve-and-spawn calls were made for it. */
  ghost predicate Token(s: State, pred: string, p: PendingResume, tries: nat) {
    pred in s.verdicts && Claim(s, pred, p, tries)
  }

  ghost predicate Claim(s: State, pred: string, p: PendingResume, tries: nat) {
    && pred in s.launched && pred in s.planned
    && p.successorId in s.births && s.births[p.successorId].owner == SuccessorOf(pred)
    && FitsPending(s.cfg, s.births[p.successorId], p)
    && p.successorId !in s.launched
    && p.spawnAttempts <= MAX_SPAWN_RETRIES
    && Count(s.attempts, pred) == tries
  }

  // --- the parts of the invariant ---

  ghost predicate Undecided(s: State, id: string) {
    id in s.launched && id !in s.planned && id !in s.verdicts
  }

  predicate Blank(r: Run) {
    r.IsRunning() && r.pendingResume.None? && r.pushedAt.None? && !r.stopRequested && !r.finalizing
  }

  /** A run about to be put, or just put: its id is its thread's own. */
  ghost predicate StarterOk(s: State, t: nat, run: Run, caller: Caller, tries: nat) {
    && run.id in s.births && run.id !in s.launched && FitsRun(s.cfg, s.births[run.id], run) && Blank(run)
    && match caller
       case ByPost(_) => s.births[run.id].owner == Posted(t)
       case ByFiring(pred, p, _) => Token(s, pred, p, p.spawnAttempts + tries) && run.id == p.successorId
  }

  ghost predicate ThreadOk(s: State, t: nat)
    requires t < |s.threads|
  {
    match s.threads[t]
    case Reserve(run, caller) => StarterOk(s, t, run, caller, 0) && run.id !in s.runs
    case Start(run, caller) => StarterOk(s, t, run, caller, 1) && run.id in s.runs
    case Undo(run, caller, _) => StarterOk(s, t, run, caller, 1) && run.id in s.runs
    case Register(run, _, _) =>
      && Undecided(s, run.id) && run.id !in s.deciding
      && run.id in s.births && FitsRun(s.cfg, s.births[run.id], run) && Blank(run)
    case BeginFinalizing(id, _) => Undecided(s, id) && id !in s.deciding
    case Finalize(id, _) => Undecided(s, id) && id !in s.deciding && id in s.runs && s.runs[id].finalizing
    case ReadFinal(id, _) => Undecided(s, id) && id in s.deciding
    case Decide(run, _) =>
      Undecided(s, run.id) && run.id in s.deciding && run.id in s.births && FitsRun(s.cfg, s.births[run.id], run)
    case Arm(id, succ, r) =>
      && Claim(s, id, Pending(succ, r, 0), 0) && succ !in s.runs
      && id in s.deciding && id !in s.verdicts
    case EndFinalizing(id) => id in s.launched && id !in s.deciding
    case ReadPred(pred, p, _) => Token(s, pred, p, p.spawnAttempts) && p.successorId !in s.runs
    case Rearm(pred, p, _) => Token(s, pred, p, p.spawnAttempts + 1) && p.successorId !in s.runs
    case _ => true
  }

  ghost predicate RunOk(s: State, id: string)
    requires id in s.runs
  {
    var r := s.runs[id];
    && r.id == id && id in s.births && FitsRun(s.cfg, s.births[id], r)
    && (r.pendingResume.Some? ==>
          Token(s, id, r.pendingResume.value, r.pendingResume.value.spawnAttempts)
          && r.pendingResume.value.successorId !in s.runs)
    && (r.pushedAt.Some? ==> id in s.verdicts && id !in s.planned)
    && (r.pushedAt.None? ==> Count(s.pushes, id) == 0)
    && (id in s.deciding ==> r.finalizing && !r.IsRunning())
    && (!r.IsRunning() ==> id in s.verdicts || id in s.stopEnded || id in s.deciding)
  }

  ghost predicate RunsOk(s: State) {
    forall id | id in s.runs :: RunOk(s, id)
  }

  ghost predicate ThreadsOk(s: State) {
    forall t: nat | t < |s.threads| :: ThreadOk(s, t)
  }

  /** A thread that holds a chain's one resume means it is not armed. */
  ghost predicate HeldMeansCleared(s: State) {
    forall t: nat | t < |s.threads| && ChainOf(s.threads[t]).Some? ::
      var id := ChainOf(s.threads[t]).value; id in s.runs ==> s.runs[id].pendingResume.None?
  }

  /** The thread has the record of a run in hand whose process it has not started. */
  predicate StartsRun(th: Thread, id: string) {
    (th.Start? || th.Undo?) && th.run.id == id
  }

  /** Every record whose process was not started has a thread that will start it or take it back. */
  ghost predicate StartsHeld(s: State) {
    forall id | id in s.runs && id !in s.launched :: exists t :: 0 <= t < |s.threads| && StartsRun(s.threads[t], id)
  }

  ghost predicate BirthsOk(s: State) {
    && (forall id | id in s.births :: BirthOk(s, id))
    && (forall a, b | a in s.births && b in s.births && a != b ::
          s.births[a].owner.SuccessorOf? ==> s.births[a].owner != s.births[b].owner)
    && (forall id | id in s.births && s.births[id].owner.Posted? :: s.births[id].owner.thread < |s.threads|)
  }

  ghost predicate SetsOk(s: State) {
    && ValidConfig(s.cfg) && WithinCaps(s.cfg, s.caps)
    && s.launched <= s.runs.Keys
    && s.planned <= s.launched && s.deciding <= s.launched && s.verdicts.Keys <= s.launched
    && (forall id | id !in s.planned :: Count(s.attempts, id) == 0)
    && (forall id | id in s.attempts :: s.attempts[id] <= MAX_SPAWN_RETRIES + 1)
    && (forall id | id in s.pushes :: s.pushes[id] <= 1 && (s.pushes[id] == 1 ==> id in s.launched))
    && (forall id | id in s.planned && id !in s.verdicts :: id in s.deciding)
  }

  ghost predicate Inv(s: State) {
    SetsOk(s) && BirthsOk(s) && RunsOk(s) && ThreadsOk(s) && HeldMeansCleared(s)
    && Alone(s.threads) && StartsHeld(s)
  }

  // --- frames ---

  /** A step of thread t left what concerns this run alone. */
  ghost predicate SameFor(s: State, s': State, id: string) {
    && (id in s.planned <==> id in s'.planned)
    && (id in s.verdicts <==> id in s'.verdicts)
    && (id in s.deciding <==> id in s'.deciding)
    && Count(s.attempts, id) == Count(s'.attempts, id)
  }

  ghost predicate Grows(s: State, s': State) {
    && s'.cfg == s.cfg && s'.caps == s.caps
    && s.births.Keys <= s'.births.Keys && (forall id | id in s.births :: s'.births[id] == s.births[id])
    && s.launched <= s'.launched && s.planned <= s'.planned
  }

  /** What a thread relies on is untouched. */
  ghost predicate Undisturbed(s: State, s': State, th: Thread) {
    && (ChainOf(th).Some? ==> SameFor(s, s', ChainOf(th).value))
    && (FinalizerOf(th).Some? ==> var id := FinalizerOf(th).value;
          (id in s.deciding <==> id in s'.deciding)
          && (id in s.runs ==> id in s'.runs && s'.runs[id].finalizing == s.runs[id].finalizing))
    && (StarterOf(th).Some? ==> var id := StarterOf(th).value;
          (id in s.runs <==> id in s'.runs) && (id in s'.launched ==> id in s.launched))
  }

  lemma ThreadFrame(s: State, s': State, i: nat)
    requires i < |s.threads| && i < |s'.threads| && s'.threads[i] == s.threads[i]
    requires Grows(s, s') && ThreadOk(s, i) && Undisturbed(s, s', s.threads[i])
    ensures ThreadOk(s', i)
  {
    hide FitsRun, FitsPending;
  }

  /** All threads but t are undisturbed, so only t and the new ones need a look. */
  lemma ThreadsFrame(s: State, s': State, t: nat)
    requires ThreadsOk(s) && Grows(s, s') && |s.threads| <= |s'.threads| && t < |s.threads|
    requires forall i: nat | i < |s.threads| && i != t :: s'.threads[i] == s.threads[i] && Undisturbed(s, s', s.threads[i])
    requires ThreadOk(s', t)
    requires forall i: nat | |s.threads| <= i < |s'.threads| :: ThreadOk(s', i)
    ensures ThreadsOk(s')
  {
    hide Undisturbed, ThreadOk, Grows;
    forall i: nat | i < |s'.threads| ensures ThreadOk(s', i) {
      if i < |s.threads| && i != t { ThreadFrame(s, s', i); }
    }
  }

  ghost predicate RunUntouched(s: State, s': State, id: string)
    requires id in s.runs
  {
    && id in s'.runs && s'.runs[id] == s.runs[id] && SameFor(s, s', id)
    && Count(s'.pushes, id) == Count(s.pushes, id)
    && (id in s.stopEnded ==> id in s'.stopEnded)
    && (s.runs[id].pendingResume.Some? ==> var succ := s.runs[id].pendingResume.value.successorId;
          succ !in s'.runs && (succ in s'.launched ==> succ in s.launched))
  }

  lemma RunFrame(s: State, s': State, id: string)
    requires id in s.runs && RunOk(s, id) && Grows(s, s') && RunUntouched(s, s', id)
    ensures RunOk(s', id)
  {
    hide FitsRun, FitsPending;
  }

  /** All runs but one are untouched. */
  lemma RunsFrame(s: State, s': State, id: string)
    requires RunsOk(s) && Grows(s, s')
    requires forall x | x in s'.runs && x != id :: x in s.runs && RunUntouched(s, s', x)
    requires id in s'.runs ==> RunOk(s', id)
    ensures RunsOk(s')
  {
    forall x | x in s'.runs ensures RunOk(s', x) {
      if x != id { RunFrame(s, s', x); }
    }
  }

  /** Thread t's new claims are its old ones, or nobody else's. */
  ghost predicate ClaimsKept(threads: seq<Thread>, t: nat, th: Thread)
    requires t < |threads|
  {
    && (ChainOf(th).Some? ==> forall i | 0 <= i < |threads| && i != t :: ChainOf(threads[i]) != ChainOf(th))
    && (FinalizerOf(th).Some? ==> forall i | 0 <= i < |threads| && i != t :: FinalizerOf(threads[i]) != FinalizerOf(th))
  }

  lemma SameClaims(threads: seq<Thread>, t: nat, th: Thread)
    requires Alone(threads) && t < |threads|
    requires ChainOf(th).None? || ChainOf(th) == ChainOf(threads[t])
    requires FinalizerOf(th).None? || FinalizerOf(th) == FinalizerOf(threads[t])
    ensures ClaimsKept(threads, t, th)
  {}

  lemma AloneGoto(threads: seq<Thread>, t: nat, th: Thread)
    requires Alone(threads) && t < |threads| && ClaimsKept(threads, t, th)
    ensures Alone(threads[t := th])
  {
    hide ChainOf, FinalizerOf;
  }

  /** Two threads never have the same run in hand before its start: its birth names the POST's thread
      or the predecessor whose resume only one thread holds. */
  lemma StartersApart(s: State, i: nat, j: nat)
    requires i < |s.threads| && j < |s.threads| && ThreadOk(s, i) && ThreadOk(s, j) && Alone(s.threads)
    requires StarterOf(s.threads[i]).Some? && StarterOf(s.threads[i]) == StarterOf(s.threads[j])
    ensures i == j
  {
    StarterOwner(s, i);
    StarterOwner(s, j);
  }

  lemma StarterOwner(s: State, i: nat)
    requires i < |s.threads| && ThreadOk(s, i) && StarterOf(s.threads[i]).Some?
    ensures var id := StarterOf(s.threads[i]).value;
            id in s.births && id !in s.launched
            && (s.births[id].owner == Posted(i)
                || (ChainOf(s.threads[i]).Some? && s.births[id].owner == SuccessorOf(ChainOf(s.threads[i]).value)))
  {
    hide FitsRun, FitsPending;
  }

  lemma ClaimLaunched(s: State, i: nat)
    requires i < |s.threads| && ThreadOk(s, i)
    ensures ChainOf(s.threads[i]).Some? ==> ChainOf(s.threads[i]).value in s.launched
    ensures FinalizerOf(s.threads[i]).Some? ==> FinalizerOf(s.threads[i]).value in s.launched
  {
    hide FitsRun, FitsPending;
  }
}
