/** Frames for the steps of the build engine: what a step that touches one record, or none, or several,
    has to show for the invariant to hold after it. */
module BuildFrames {
  import opened Wrappers
  import opened Runs
  import opened ResumePlan
  import opened BuildEngine
  import opened BuildInvariant

  /** A thread with an unstarted record in hand keeps it. */
  predicate StartKept(was: Thread, th: Thread) {
    was.Start? || was.Undo? ==> StartsRun(th, was.run.id)
  }

  lemma StartsFrame(s: State, s': State, t: nat, th: Thread, extra: seq<Thread>)
    requires StartsHeld(s) && t < |s.threads| && s'.threads == s.threads[t := th] + extra && StartKept(s.threads[t], th)
    requires s'.runs.Keys == s.runs.Keys && s'.launched == s.launched
    ensures StartsHeld(s')
  {
    forall id | id in s'.runs && id !in s'.launched
      ensures exists i :: 0 <= i < |s'.threads| && StartsRun(s'.threads[i], id)
    {
      var i :| 0 <= i < |s.threads| && StartsRun(s.threads[i], id);
      assert StartsRun(s'.threads[i], id);
    }
  }

  /** The unstarted records after the step are those before it, but for what t takes up or gives up. */
  lemma StartsWide(s: State, s': State, t: nat, th: Thread)
    requires StartsHeld(s) && t < |s.threads| && s'.threads == s.threads[t := th]
    requires forall x | x in s'.runs && x !in s'.launched ::
               StartsRun(th, x) || (x in s.runs && x !in s.launched && !StartsRun(s.threads[t], x))
    ensures StartsHeld(s')
  {
    hide StartsRun;
    forall x | x in s'.runs && x !in s'.launched
      ensures exists i :: 0 <= i < |s'.threads| && StartsRun(s'.threads[i], x)
    {
      if StartsRun(th, x) {
        assert s'.threads[t] == th;
      } else {
        var i :| 0 <= i < |s.threads| && StartsRun(s.threads[i], x);
        assert s'.threads[i] == s.threads[i];
      }
    }
  }

  /** A step that only moves its own thread. */
  lemma GotoKeeps(s: State, t: nat, th: Thread)
    requires Inv(s) && t < |s.threads|
    requires ThreadOk(Goto(s, t, th), t)
    requires ChainOf(th).None? || ChainOf(th) == ChainOf(s.threads[t])
    requires FinalizerOf(th).None? || FinalizerOf(th) == FinalizerOf(s.threads[t])
    requires StartKept(s.threads[t], th)
    ensures Inv(Goto(s, t, th))
  {
    hide Inv, SetsOk, BirthsOk, RunsOk, ThreadsOk, HeldMeansCleared, Alone, StartsHeld, ThreadOk, ClaimsKept,
      ChainOf, FinalizerOf, StartKept;
    InvParts(s);
    SetsGoto(s, t, th);
    StartsFrame(s, Goto(s, t, th), t, th, []);
    HeldGoto(s, t, th);
    SameClaims(s.threads, t, th);
    AloneGoto(s.threads, t, th);
    ThreadsGoto(s, t, th);
    RunsGoto(s, t, th);
    InvWhole(Goto(s, t, th));
  }

  /** A thread that has nothing in hand. */
  predicate Quiet(th: Thread) {
    ChainOf(th).None? && FinalizerOf(th).None? && StarterOf(th).None?
  }

  lemma QuietOk(s: State, t: nat)
    requires t < |s.threads| && Quiet(s.threads[t])
    ensures ThreadOk(s, t)
  {}

  lemma QuietNext(rest: seq<string>)
    ensures Quiet(Next(rest))
  {}

  lemma QuietKeeps(s: State, t: nat, th: Thread)
    requires Inv(s) && t < |s.threads| && Quiet(th) && !s.threads[t].Start? && !s.threads[t].Undo?
    ensures Inv(Goto(s, t, th))
  {
    hide Inv, ThreadOk, ChainOf, FinalizerOf, StarterOf;
    QuietOk(Goto(s, t, th), t);
    GotoKeeps(s, t, th);
  }

  lemma FinishKeeps(s: State, t: nat)
    requires Inv(s) && t < |s.threads| && !s.threads[t].Start? && !s.threads[t].Undo?
    ensures Inv(Goto(s, t, Finished))
  {
    hide Inv;
    QuietKeeps(s, t, Finished);
  }

  lemma ThreadsGoto(s: State, t: nat, th: Thread)
    requires ThreadsOk(s) && t < |s.threads| && ThreadOk(Goto(s, t, th), t)
    ensures ThreadsOk(Goto(s, t, th))
  {
    hide ThreadOk, ChainOf, FinalizerOf, StarterOf;
    ThreadsFrame(s, Goto(s, t, th), t);
  }

  lemma SetsGoto(s: State, t: nat, th: Thread)
    requires SetsOk(s) && BirthsOk(s) && t < |s.threads|
    ensures SetsOk(Goto(s, t, th)) && BirthsOk(Goto(s, t, th))
  {
    hide Count, BirthOk;
    BirthsFrame(s, Goto(s, t, th));
  }

  lemma RunsGoto(s: State, t: nat, th: Thread)
    requires RunsOk(s) && t < |s.threads|
    ensures RunsOk(Goto(s, t, th))
  {
    var s' := Goto(s, t, th);
    forall id | id in s'.runs ensures RunOk(s', id) {
      ArmedOutside(s, id);
      RunFrame(s, s', id);
    }
  }

  lemma HeldGoto(s: State, t: nat, th: Thread)
    requires HeldMeansCleared(s) && t < |s.threads|
    requires ChainOf(th).None? || ChainOf(th) == ChainOf(s.threads[t])
    ensures HeldMeansCleared(Goto(s, t, th))
  {
    hide ChainOf;
  }

  lemma BirthFrame(s: State, s': State, id: string)
    requires id in s.births && BirthOk(s, id) && Grows(s, s')
    ensures BirthOk(s', id)
  {}

  lemma BirthsFrame(s: State, s': State)
    requires BirthsOk(s) && Grows(s, s') && s'.births == s.births && |s.threads| <= |s'.threads|
    ensures BirthsOk(s')
  {
    hide BirthOk;
    forall id | id in s'.births ensures BirthOk(s', id) { BirthFrame(s, s', id); }
  }

  lemma InvParts(s: State)
    requires Inv(s)
    ensures SetsOk(s) && BirthsOk(s) && RunsOk(s) && ThreadsOk(s) && HeldMeansCleared(s)
    ensures Alone(s.threads) && StartsHeld(s)
  {
    hide SetsOk, BirthsOk, RunsOk, ThreadsOk, HeldMeansCleared, Alone, StartsHeld;
  }

  lemma InvWhole(s: State)
    requires SetsOk(s) && BirthsOk(s) && RunsOk(s) && ThreadsOk(s) && HeldMeansCleared(s)
    requires Alone(s.threads) && StartsHeld(s)
    ensures Inv(s)
  {
    hide SetsOk, BirthsOk, RunsOk, ThreadsOk, HeldMeansCleared, Alone, StartsHeld;
  }

  lemma ThreadAt(s: State, t: nat)
    requires Inv(s) && t < |s.threads|
    ensures ThreadOk(s, t)
  {
    hide ThreadOk;
  }

  lemma RunAt(s: State, id: string)
    requires Inv(s) && id in s.runs
    ensures RunOk(s, id)
  {
    hide RunOk;
  }

  // --- steps that change one record ---

  /** The change to run id shows to no other thread: it leaves what they rely on, or id is t's alone. */
  ghost predicate OwnRun(s: State, s': State, t: nat, id: string)
    requires t < |s.threads| && id in s.runs && id in s'.runs
  {
    && (ChainOf(s.threads[t]) == Some(id) || SameFor(s, s', id))
    && (FinalizerOf(s.threads[t]) == Some(id)
        || ((id in s.deciding <==> id in s'.deciding) && s'.runs[id].finalizing == s.runs[id].finalizing))
  }

  /** One record changed, and what the history says of that run. */
  ghost predicate OneRecord(s: State, s': State, id: string) {
    && id in s.runs && s'.runs.Keys == s.runs.Keys
    && s'.cfg == s.cfg && s'.caps == s.caps && s'.births == s.births && s'.launched == s.launched && s'.planned == s.planned
    && (forall x | x in s.runs && x != id ::
          s'.runs[x] == s.runs[x] && Count(s'.pushes, x) == Count(s.pushes, x) && (x in s.stopEnded ==> x in s'.stopEnded))
    && (forall x | x != id :: SameFor(s, s', x))
  }

  /** A new thread claims nothing, or what t had and gives up. */
  predicate HandedOver(was: Thread, th: Thread, extra: seq<Thread>) {
    forall e <- extra ::
      && (ChainOf(e).None? || (ChainOf(e) == ChainOf(was) && ChainOf(th).None?))
      && (FinalizerOf(e).None? || (FinalizerOf(e) == FinalizerOf(was) && FinalizerOf(th).None?))
  }

  /** Thread t goes to th; a new thread takes over at most what t had. */
  ghost predicate Moves(s: State, s': State, t: nat, th: Thread, extra: seq<Thread>)
    requires t < |s.threads|
  {
    s'.threads == s.threads[t := th] + extra && |extra| <= 1
    && HandedOver(s.threads[t], th, extra) && ClaimsKept(s.threads, t, th) && StartKept(s.threads[t], th)
  }

  /** What a thread has in hand is what t had, or id, and id is not armed. */
  predicate HandKept(was: Thread, th: Thread, id: string, r: Run) {
    ChainOf(th).Some? ==> (ChainOf(th) == Some(id) && r.pendingResume.None?)
                          || (ChainOf(th) == ChainOf(was) && ChainOf(th) != Some(id))
  }

  /** No resume is armed on id but the old one, unless t had it in hand. */
  predicate ArmedByHolder(was: Thread, id: string, a: Run, b: Run) {
    b.pendingResume.Some? ==> b.pendingResume == a.pendingResume || ChainOf(was) == Some(id)
  }

  /** What a step that changes one record has to show. */
  ghost predicate OneMove(s: State, s': State, t: nat, id: string, th: Thread, extra: seq<Thread>)
    requires t < |s.threads|
  {
    && OneRecord(s, s', id) && Moves(s, s', t, th, extra) && OwnRun(s, s', t, id)
    && ArmedByHolder(s.threads[t], id, s.runs[id], s'.runs[id])
    && HandKept(s.threads[t], th, id, s'.runs[id]) && (forall e <- extra :: HandKept(s.threads[t], e, id, s'.runs[id]))
    && SetsOk(s') && RunOk(s', id) && ThreadOk(s', t) && (extra != [] ==> ThreadOk(s', |s.threads|))
  }

  lemma OneKeeps(s: State, s': State, t: nat, id: string, th: Thread, extra: seq<Thread>)
    requires Inv(s) && t < |s.threads| && OneMove(s, s', t, id, th, extra)
    ensures Inv(s')
  {
    hide Inv, SetsOk, BirthsOk, RunsOk, ThreadsOk, HeldMeansCleared, Alone, StartsHeld, OneRecord, Moves, OwnRun,
      ArmedByHolder, HandKept, ThreadOk, RunOk, Grows, ChainOf, FinalizerOf, StartKept;
    InvParts(s);
    OneBirths(s, s', t, id, th, extra);
    OneStarts(s, s', t, id, th, extra);
    OneHeld(s, s', t, id, th, extra);
    OneThreads(s, s', t, id, th, extra);
    OneRuns(s, s', id);
    InvWhole(s');
  }

  lemma OneBirths(s: State, s': State, t: nat, id: string, th: Thread, extra: seq<Thread>)
    requires BirthsOk(s) && Alone(s.threads) && t < |s.threads| && OneRecord(s, s', id) && Moves(s, s', t, th, extra)
    ensures BirthsOk(s') && Alone(s'.threads)
  {
    hide BirthsOk, Alone, SameFor, HandedOver, ClaimsKept;
    AloneExtend(s.threads, t, th, extra);
    BirthsFrame(s, s');
  }

  lemma OneStarts(s: State, s': State, t: nat, id: string, th: Thread, extra: seq<Thread>)
    requires StartsHeld(s) && t < |s.threads| && OneRecord(s, s', id) && Moves(s, s', t, th, extra)
    ensures StartsHeld(s')
  {
    hide StartsHeld, StartKept, SameFor, HandedOver, ClaimsKept, Count;
    StartsFrame(s, s', t, th, extra);
  }

  lemma OneHeld(s: State, s': State, t: nat, id: string, th: Thread, extra: seq<Thread>)
    requires HeldMeansCleared(s) && Alone(s.threads) && t < |s.threads| && OneRecord(s, s', id)
    requires Moves(s, s', t, th, extra) && ArmedByHolder(s.threads[t], id, s.runs[id], s'.runs[id])
    requires HandKept(s.threads[t], th, id, s'.runs[id])
    requires forall e <- extra :: HandKept(s.threads[t], e, id, s'.runs[id])
    ensures HeldMeansCleared(s')
  {
    hide ChainOf, FinalizerOf, HandedOver, ClaimsKept, SameFor, Count;
    assert forall i | |s.threads| <= i < |s'.threads| :: s'.threads[i] in extra;
    forall i: nat | i < |s'.threads| && ChainOf(s'.threads[i]).Some?
      ensures var x := ChainOf(s'.threads[i]).value; x in s'.runs ==> s'.runs[x].pendingResume.None?
    {
      if i < |s.threads| && i != t {
        OthersElsewhere(s.threads, t, i);
        assert s'.threads[i] == s.threads[i];
      } else if i >= |s.threads| {
        assert HandKept(s.threads[t], s'.threads[i], id, s'.runs[id]);
      }
    }
  }

  lemma OneGrows(s: State, s': State, id: string)
    requires OneRecord(s, s', id)
    ensures Grows(s, s')
  {
    hide SameFor, Count;
  }

  lemma OneThreads(s: State, s': State, t: nat, id: string, th: Thread, extra: seq<Thread>)
    requires ThreadsOk(s) && Alone(s.threads) && t < |s.threads| && OneRecord(s, s', id) && OwnRun(s, s', t, id)
    requires Moves(s, s', t, th, extra)
    requires ThreadOk(s', t) && (extra != [] ==> ThreadOk(s', |s.threads|))
    ensures ThreadsOk(s')
  {
    hide ThreadsOk, ThreadOk, Alone, OneRecord, OwnRun, HandedOver, ClaimsKept, Undisturbed, Grows, ChainOf, FinalizerOf;
    OneGrows(s, s', id);
    forall i: nat | i < |s.threads| && i != t
      ensures s'.threads[i] == s.threads[i] && Undisturbed(s, s', s.threads[i])
    {
      OthersElsewhere(s.threads, t, i);
      OthersUndisturbed(s, s', t, id, s.threads[i]);
    }
    ThreadsFrame(s, s', t);
  }

  lemma OneRuns(s: State, s': State, id: string)
    requires RunsOk(s) && OneRecord(s, s', id) && RunOk(s', id)
    ensures RunsOk(s')
  {
    hide RunsOk, RunOk, Grows, SameFor, Count;
    OneGrows(s, s', id);
    forall x | x in s'.runs && x != id ensures RunUntouched(s, s', x) {
      ArmedOutside(s, x);
    }
    RunsFrame(s, s', id);
  }

  lemma ArmedOutside(s: State, x: string)
    requires RunsOk(s) && x in s.runs
    ensures RunOk(s, x)
    ensures s.runs[x].pendingResume.Some? ==> s.runs[x].pendingResume.value.successorId !in s.runs
  {}

  lemma OthersUndisturbed(s: State, s': State, t: nat, id: string, other: Thread)
    requires t < |s.threads| && OneRecord(s, s', id)
    requires OwnRun(s, s', t, id)
    requires ChainOf(s.threads[t]).Some? ==> ChainOf(other) != ChainOf(s.threads[t])
    requires FinalizerOf(s.threads[t]).Some? ==> FinalizerOf(other) != FinalizerOf(s.threads[t])
    ensures Undisturbed(s, s', other)
  {
    hide ChainOf, FinalizerOf, StarterOf, SameFor, OwnRun;
    FinalizerUndisturbed(s, s', t, id, other);
    ChainUndisturbed(s, s', t, id, other);
  }

  lemma ChainUndisturbed(s: State, s': State, t: nat, id: string, other: Thread)
    requires t < |s.threads| && id in s.runs && s'.runs.Keys == s.runs.Keys
    requires forall x | x != id :: SameFor(s, s', x)
    requires OwnRun(s, s', t, id)
    requires ChainOf(s.threads[t]).Some? ==> ChainOf(other) != ChainOf(s.threads[t])
    ensures ChainOf(other).Some? ==> SameFor(s, s', ChainOf(other).value)
  {
    hide ChainOf, FinalizerOf, SameFor;
  }

  lemma FinalizerUndisturbed(s: State, s': State, t: nat, id: string, other: Thread)
    requires t < |s.threads| && id in s.runs && s'.runs.Keys == s.runs.Keys
    requires forall x | x in s.runs && x != id :: s'.runs[x] == s.runs[x]
    requires forall x | x != id :: SameFor(s, s', x)
    requires OwnRun(s, s', t, id)
    requires FinalizerOf(s.threads[t]).Some? ==> FinalizerOf(other) != FinalizerOf(s.threads[t])
    ensures FinalizerOf(other).Some? ==> var f := FinalizerOf(other).value;
              (f in s.deciding <==> f in s'.deciding)
              && (f in s.runs ==> f in s'.runs && s'.runs[f].finalizing == s.runs[f].finalizing)
  {
    hide ChainOf, FinalizerOf, StarterOf, Count;
    if FinalizerOf(other).Some? {
      var f := FinalizerOf(other).value;
      assert f != id ==> SameFor(s, s', f);
    }
  }

  lemma AloneExtend(threads: seq<Thread>, t: nat, th: Thread, extra: seq<Thread>)
    requires Alone(threads) && t < |threads| && ClaimsKept(threads, t, th) && |extra| <= 1
    requires HandedOver(threads[t], th, extra)
    ensures Alone(threads[t := th] + extra)
  {
    hide ChainOf, FinalizerOf;
    AloneGoto(threads, t, th);
    if extra != [] {
      assert extra[0] in extra;
    }
  }

  lemma OthersElsewhere(threads: seq<Thread>, t: nat, i: nat)
    requires Alone(threads) && t < |threads| && i < |threads| && i != t
    ensures ChainOf(threads[t]).Some? ==> ChainOf(threads[i]) != ChainOf(threads[t])
    ensures FinalizerOf(threads[t]).Some? ==> FinalizerOf(threads[i]) != FinalizerOf(threads[t])
  {
    hide ChainOf, FinalizerOf;
  }

  // --- steps that change one record's flags, pid or pending resume, and no history ---

  /** A change of a record's flags, pid or pending resume only. */
  predicate Soft(a: Run, b: Run) {
    && b.id == a.id && b.status == a.status && b.meta == a.meta && b.pushedAt == a.pushedAt && SpecOf(b) == SpecOf(a)
    && b.resumeCount == a.resumeCount && b.noProgressStreak == a.noProgressStreak && b.firstStartedAt == a.firstStartedAt
  }

  /** The resume armed on id is the old one, none, or a token that was in hand of thread t. */
  ghost predicate PendingKept(s: State, t: nat, id: string, r: Run)
    requires t < |s.threads| && id in s.runs
  {
    r.pendingResume.Some? ==>
      || r.pendingResume == s.runs[id].pendingResume
      || (ChainOf(s.threads[t]) == Some(id)
          && Token(s, id, r.pendingResume.value, r.pendingResume.value.spawnAttempts)
          && r.pendingResume.value.successorId !in s.runs)
  }

  /** A step that changes only threads and one record. */
  ghost predicate OnlyRun(s: State, s': State, id: string) {
    id in s.runs && id in s'.runs && s' == s.(threads := s'.threads, runs := s.runs[id := s'.runs[id]])
  }

  ghost predicate SoftMove(s: State, s': State, t: nat, id: string, th: Thread, extra: seq<Thread>)
    requires t < |s.threads|
  {
    && OnlyRun(s, s', id) && Moves(s, s', t, th, extra)
    && Soft(s.runs[id], s'.runs[id]) && PendingKept(s, t, id, s'.runs[id])
    && (s'.runs[id].finalizing == s.runs[id].finalizing || (FinalizerOf(s.threads[t]) == Some(id) && id !in s.deciding))
    && HandKept(s.threads[t], th, id, s'.runs[id]) && (forall e <- extra :: HandKept(s.threads[t], e, id, s'.runs[id]))
    && ThreadOk(s', t) && (extra != [] ==> ThreadOk(s', |s.threads|))
  }

  lemma SoftKeeps(s: State, s': State, t: nat, id: string, th: Thread, extra: seq<Thread>)
    requires Inv(s) && t < |s.threads| && SoftMove(s, s', t, id, th, extra)
    ensures Inv(s')
  {
    hide Inv, SetsOk, BirthsOk, RunsOk, ThreadsOk, HeldMeansCleared, Alone, StartsHeld, Moves, Soft,
      PendingKept, FinalizerOf, ChainOf, HandKept, ThreadOk, RunOk, OwnRun, OneRecord, ArmedByHolder;
    InvParts(s);
    RunAt(s, id);
    SoftShape(s, s', t, id);
    SoftRun(s, s', t, id);
    OneKeeps(s, s', t, id, th, extra);
  }

  lemma SoftShape(s: State, s': State, t: nat, id: string)
    requires t < |s.threads| && OnlyRun(s, s', id) && Soft(s.runs[id], s'.runs[id]) && PendingKept(s, t, id, s'.runs[id])
    requires s'.runs[id].finalizing == s.runs[id].finalizing || FinalizerOf(s.threads[t]) == Some(id)
    ensures OneRecord(s, s', id) && OwnRun(s, s', t, id)
    ensures ArmedByHolder(s.threads[t], id, s.runs[id], s'.runs[id])
    ensures SetsOk(s) ==> SetsOk(s')
  {
    hide Count, FinalizerOf, ChainOf, Token;
  }

  lemma SoftRun(s: State, s': State, t: nat, id: string)
    requires t < |s.threads| && OnlyRun(s, s', id) && RunOk(s, id)
    requires Soft(s.runs[id], s'.runs[id]) && PendingKept(s, t, id, s'.runs[id])
    requires s'.runs[id].finalizing == s.runs[id].finalizing || id !in s.deciding
    ensures RunOk(s', id)
  {
    hide FitsPending;
  }

  // --- steps that touch several runs ---

  /** What any step has to show. */
  ghost predicate WideMove(s: State, s': State, t: nat, th: Thread)
    requires t < |s.threads|
  {
    && Grows(s, s') && s'.threads == s.threads[t := th] && ClaimsKept(s.threads, t, th)
    && (forall i: nat | i < |s.threads| && i != t :: Undisturbed(s, s', s.threads[i]))
    && (forall x | x in s'.runs :: RunOk(s', x) || (x in s.runs && RunUntouched(s, s', x)))
    && SetsOk(s') && BirthsOk(s') && StartsHeld(s') && HeldMeansCleared(s') && ThreadOk(s', t)
  }

  lemma WideKeeps(s: State, s': State, t: nat, th: Thread)
    requires Inv(s) && t < |s.threads| && WideMove(s, s', t, th)
    ensures Inv(s')
  {
    hide Inv, SetsOk, BirthsOk, RunsOk, HeldMeansCleared, Alone, StartsHeld, Grows, ClaimsKept, Undisturbed,
      RunOk, RunUntouched, ThreadOk;
    InvParts(s);
    AloneGoto(s.threads, t, th);
    ThreadsFrame(s, s', t);
    forall x | x in s'.runs ensures RunOk(s', x) {
      if !RunOk(s', x) {
        RunAt(s, x);
        RunFrame(s, s', x);
      }
    }
    RunsWhole(s');
    InvWhole(s');
  }

  /** Resumes armed stay armed as they are, new records have none, and t holds no armed one. */
  lemma HeldWide(s: State, s': State, t: nat, th: Thread)
    requires HeldMeansCleared(s) && t < |s.threads| && s'.threads == s.threads[t := th]
    requires forall x | x in s'.runs :: s'.runs[x].pendingResume.None?
                                        || (x in s.runs && s'.runs[x].pendingResume == s.runs[x].pendingResume)
    requires ChainOf(th).Some? && ChainOf(th).value in s'.runs ==> s'.runs[ChainOf(th).value].pendingResume.None?
    ensures HeldMeansCleared(s')
  {
    hide ChainOf;
  }

  lemma RunsWhole(s: State)
    requires forall x | x in s.runs :: RunOk(s, x)
    ensures RunsOk(s)
  {
    hide RunOk;
  }

  // --- what the invariant says about one thread or run ---

  lemma HeldAt(s: State, t: nat, id: string)
    requires Inv(s) && t < |s.threads| && ChainOf(s.threads[t]) == Some(id) && id in s.runs
    ensures s.runs[id].pendingResume.None?
  {
    hide Inv, SetsOk, BirthsOk, RunsOk, ThreadsOk, Alone, StartsHeld, ChainOf;
    InvParts(s);
  }

  /** Nobody holds a resume that is armed. */
  lemma ArmedUnheld(s: State, id: string)
    requires Inv(s) && id in s.runs && s.runs[id].pendingResume.Some?
    ensures forall i | 0 <= i < |s.threads| :: ChainOf(s.threads[i]) != Some(id)
  {
    hide Inv, SetsOk, BirthsOk, RunsOk, ThreadsOk, Alone, StartsHeld, ChainOf;
    InvParts(s);
  }

  lemma BirthAt(s: State, id: string)
    requires Inv(s) && id in s.births
    ensures BirthOk(s, id) && ValidConfig(s.cfg)
  {
    hide RunsOk, ThreadsOk, HeldMeansCleared, Alone, StartsHeld, BirthOk, Count, ValidConfig;
  }

  /** No two ids were born as successors of one run. */
  lemma BirthsApart(s: State, a: string, b: string)
    requires Inv(s) && a in s.births && b in s.births
    requires s.births[a].owner.SuccessorOf? && s.births[a].owner == s.births[b].owner
    ensures a == b
  {
    hide RunsOk, ThreadsOk, HeldMeansCleared, Alone, StartsHeld, SetsOk, BirthOk;
  }

  lemma HandClaims(s: State, t: nat, th: Thread)
    requires Inv(s) && t < |s.threads|
    requires ChainOf(th).None? || ChainOf(th) == ChainOf(s.threads[t])
    requires FinalizerOf(th).None? || FinalizerOf(th) == FinalizerOf(s.threads[t])
    ensures ClaimsKept(s.threads, t, th)
  {
    hide Inv, SetsOk, BirthsOk, RunsOk, ThreadsOk, HeldMeansCleared, Alone, StartsHeld, ChainOf, FinalizerOf, ClaimsKept;
    InvParts(s);
    SameClaims(s.threads, t, th);
  }

  /** A launched run is never deleted. */
  lemma LaunchedStay(s: State, id: string)
    requires Inv(s) && id in s.launched
    ensures id in s.runs && RunOk(s, id)
  {
    hide Inv, BirthsOk, ThreadsOk, HeldMeansCleared, Alone, StartsHeld, Count, RunOk;
    InvParts(s);
  }
}
