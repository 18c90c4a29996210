/** Chains of builds: how long they get, how their time is accounted, and that a pushed build ends one. */
module BuildChains {
  import opened Runs
  import opened ResumePlan
  import opened BuildEngine
  import opened BuildInvariant
  import opened BuildFrames
  import opened BuildSteps
  import opened BuildReach
  import opened BuildVerdicts

  lemma Times(n: nat, k: nat)
    requires k >= 0
    ensures (n + 1) * k == n * k + k && n * k >= 0
  {}

  /** Where a run stands in its chain: behind the chain's first run, whose start it carries, with a
      limit wait between nothing and its cap for every link. */
  lemma {:induction false} PlaceInChain(s: State, id: string)
    requires Inv(s) && id in s.births
    ensures var b := s.births[id];
            && b.root in s.births
            && var first := s.births[b.root];
               && first.root == b.root && !first.owner.SuccessorOf? && first.start == b.start && first.waited == 0
               && first.spec == b.spec
               && first.depth <= b.depth <= s.caps.depth && (first.depth == b.depth <==> id == b.root)
               && 0 <= b.waited <= (b.depth - first.depth) * s.caps.wait
    decreases s.births[id].depth
  {
    hide Inv;
    BirthAt(s, id);
    var b := s.births[id];
    if b.owner.SuccessorOf? {
      var a := s.births[b.owner.pred];
      PlaceInChain(s, b.owner.pred);
      Times(a.depth - s.births[b.root].depth, s.caps.wait);
    } else {
      assert b.root == id;
    }
  }

  /** A chain is a line: no two of its runs have the same depth. */
  lemma {:induction false} SamePlaceSameRun(s: State, a: string, b: string)
    requires Inv(s) && a in s.births && b in s.births
    requires s.births[a].root == s.births[b].root && s.births[a].depth == s.births[b].depth
    ensures a == b
    decreases s.births[a].depth
  {
    hide Inv;
    PlaceInChain(s, a);
    PlaceInChain(s, b);
    BirthAt(s, a);
    BirthAt(s, b);
    if a != s.births[a].root {
      assert s.births[a].owner.SuccessorOf? && s.births[b].owner.SuccessorOf?;
      SamePlaceSameRun(s, s.births[a].owner.pred, s.births[b].owner.pred);
      BirthsApart(s, a, b);
    }
  }

  /** As many ids as different places below n at most. */
  lemma {:induction false} FewPlaces(ids: set<string>, place: string -> nat, n: nat)
    requires forall x | x in ids :: place(x) < n
    requires forall x, y | x in ids && y in ids && x != y :: place(x) != place(y)
    ensures |ids| <= n
  {
    if n == 0 {
      if x :| x in ids { assert false; }
    } else if x :| x in ids && place(x) == n - 1 {
      FewPlaces(ids - {x}, place, n - 1);
    } else {
      FewPlaces(ids, place, n - 1);
    }
  }

  function DepthIn(births: map<string, Birth>): string -> nat {
    (id: string) => if id in births then births[id].depth else 0
  }

  /** A chain has at most one run more than the largest resume count of settings and journal, however its
      resumes interleave with everything else: the count of each run is its depth. */
  lemma ChainsAreShort(s: State, events: seq<Event>, root: string)
    requires Boot(s)
    ensures var s' := After(s, events);
            && |set x | x in s'.births && s'.births[x].root == root| <= s.caps.depth + 1
            && forall id | id in s'.runs ::
                 && id in s'.births && s'.runs[id].resumeCount == s'.births[id].depth <= s.caps.depth
                 && s'.runs[id].noProgressStreak < s.cfg.noProgressLimit
  {
    hide Inv, Boot, After;
    AlwaysInv(s, events);
    SetupStays(s, events);
    var s' := After(s, events);
    var ids := set x | x in s'.births && s'.births[x].root == root;
    forall x | x in ids ensures s'.births[x].depth < s.caps.depth + 1 {
      PlaceInChain(s', x);
    }
    forall x, y | x in ids && y in ids && x != y ensures s'.births[x].depth != s'.births[y].depth {
      if s'.births[x].depth == s'.births[y].depth { SamePlaceSameRun(s', x, y); }
    }
    FewPlaces(ids, DepthIn(s'.births), s.caps.depth + 1);
    forall id | id in s'.runs
      ensures id in s'.births && s'.runs[id].resumeCount == s'.births[id].depth <= s.caps.depth
      ensures s'.runs[id].noProgressStreak < s.cfg.noProgressLimit
    {
      RunPlace(s', id);
      PlaceInChain(s', id);
    }
  }

  /** One SpawnBuild yields at most 1 + maxBuildResumes runs, and whatever this process plans keeps to its
      settings, whatever an earlier process left. */
  lemma PostedChainsAreShort(s: State, events: seq<Event>, root: string)
    requires Boot(s)
    ensures var s' := After(s, events);
            && (root in s'.births && s'.births[root].owner.Posted? ==>
                  |set x | x in s'.births && s'.births[x].root == root| <= s.cfg.maxBuildResumes + 1)
            && forall x | x in s'.births && s'.births[x].owner.SuccessorOf? ::
                 var pred := s'.births[x].owner.pred;
                 !(pred in s'.verdicts && s'.verdicts[pred].EndedBeforeBoot?) ==>
                   s'.births[x].depth <= s.cfg.maxBuildResumes
  {
    hide Inv, Boot, After, Decided;
    AlwaysInv(s, events);
    AlwaysDecided(s, events);
    SetupStays(s, events);
    var s' := After(s, events);
    forall x | x in s'.births ensures WithinSettings(s', x) { DecidedParts(s', x); }
    if root in s'.births && s'.births[root].owner.Posted? {
      RootDepth(s', root);
      var ids := set x | x in s'.births && s'.births[x].root == root;
      forall x | x in ids ensures s'.births[x].depth < s.cfg.maxBuildResumes + 1 { PostedPlace(s', x); }
      forall x, y | x in ids && y in ids && x != y ensures s'.births[x].depth != s'.births[y].depth {
        if s'.births[x].depth == s'.births[y].depth { SamePlaceSameRun(s', x, y); }
      }
      FewPlaces(ids, DepthIn(s'.births), s.cfg.maxBuildResumes + 1);
    }
  }

  lemma DecidedParts(s: State, id: string)
    requires Decided(s) && id in s.births
    ensures WithinSettings(s, id)
    ensures forall pred <- s.verdicts :: VerdictFits(s, pred)
  {
    hide WithinSettings, VerdictFits, ResumeKept;
  }

  lemma PostedPlace(s: State, id: string)
    requires Inv(s) && Decided(s) && id in s.births
    requires s.births[id].root in s.births && s.births[s.births[id].root].owner.Posted?
    ensures s.births[id].depth <= s.cfg.maxBuildResumes
  {
    hide Inv, Decided, ValidConfig;
    PlaceInChain(s, id);
    DecidedParts(s, id);
    BirthAt(s, id);
    BirthAt(s, s.births[id].root);
    RootDepth(s, id);
    if s.births[id].owner.SuccessorOf? { BirthAt(s, s.births[id].owner.pred); }
  }

  /** The first run of a POST has no links before it. */
  lemma RootDepth(s: State, id: string)
    requires Inv(s) && id in s.births
    ensures 0 <= s.cfg.maxBuildResumes
    ensures s.births[id].owner.Posted? ==> s.births[id].depth == 0
  {
    hide Inv, BirthsOk, RunsOk, ThreadsOk, HeldMeansCleared, Alone, StartsHeld, Count;
    BirthAt(s, id);
    InvParts(s);
  }

  lemma RunPlace(s: State, id: string)
    requires Inv(s) && id in s.runs
    ensures id in s.births && FitsRun(s.cfg, s.births[id], s.runs[id])
  {
    hide Inv, Token, Count, FitsRun;
    RunAt(s, id);
  }

  /** Every armed resume is inside the budgets: the next turn, never past the cap, which is that of the
      settings when this process armed it, and a streak below the limit, whether it waits for a usage
      limit or not. */
  lemma ArmedWithinBudgets(s: State, events: seq<Event>, id: string)
    requires Boot(s) && id in After(s, events).runs && After(s, events).runs[id].pendingResume.Some?
    ensures var s' := After(s, events);
            var (r, p) := (s'.runs[id], s'.runs[id].pendingResume.value);
            && p.resumeCount == r.resumeCount + 1 <= s.caps.depth
            && p.noProgressStreak < s.cfg.noProgressLimit && p.spawnAttempts <= MAX_SPAWN_RETRIES
            && r.firstStartedAt <= p.firstStartedAt <= r.firstStartedAt + s.caps.wait
            && id in s'.verdicts
            && (!s'.verdicts[id].EndedBeforeBoot? ==> p.resumeCount <= s.cfg.maxBuildResumes)
  {
    hide Inv, Boot, After, Count, Decided;
    AlwaysInv(s, events);
    SetupStays(s, events);
    var s' := After(s, events);
    RunAt(s', id);
    BirthAt(s', s'.runs[id].pendingResume.value.successorId);
    AlwaysDecided(s, events);
    DecidedParts(s', s'.runs[id].pendingResume.value.successorId);
  }

  /** Every run of a chain is asked for the same: prompt, directory, profile, lane, engine and key. */
  lemma ChainsRunAlike(s: State, events: seq<Event>, a: string, b: string)
    requires Boot(s)
    requires var s' := After(s, events);
             && a in s'.runs && b in s'.runs && a in s'.births && b in s'.births && s'.births[a].root == s'.births[b].root
    ensures SpecOf(After(s, events).runs[a]) == SpecOf(After(s, events).runs[b])
  {
    hide Inv, Boot, After, SpecOf;
    AlwaysInv(s, events);
    SetupStays(s, events);
    var s' := After(s, events);
    RunPlace(s', a);
    RunPlace(s', b);
    PlaceInChain(s', a);
    PlaceInChain(s', b);
  }

  /** FirstStartedAt of every run is the chain's start plus the limit waits on the way, each between 0
      and its cap. */
  lemma TimeIsAccounted(s: State, events: seq<Event>, id: string)
    requires Boot(s) && id in After(s, events).runs
    ensures var s' := After(s, events);
            && id in s'.births && s'.births[id].root in s'.births
            && var (b, first) := (s'.births[id], s'.births[s'.births[id].root]);
               && s'.runs[id].firstStartedAt == first.start + b.waited
               && 0 <= b.waited <= (b.depth - first.depth) * s.caps.wait
               && (b.owner.SuccessorOf? ==>
                     b.owner.pred in s'.births && 0 <= b.waited - s'.births[b.owner.pred].waited <= s.caps.wait)
  {
    hide Inv, Boot, After;
    AlwaysInv(s, events);
    SetupStays(s, events);
    RunPlace(After(s, events), id);
    PlaceInChain(After(s, events), id);
    BirthAt(After(s, events), id);
  }

  /** Every ordinary resume is planned before the chain's start + maxWallMs + a limit wait a resume. */
  lemma OrdinaryResumeInTime(s: State, events: seq<Event>, t: nat, run: Run, cause: RedriveCause, o: Oracle)
    requires Boot(s)
    requires var s' := After(s, events);
             && t < |s'.threads| && s'.threads[t] == Decide(run, cause)
             && var plan := PlanResume(s'.cfg, s'.reader, run, o.lines, cause, PlanClock(o.atDetect, o.now), o.fingerprint);
                plan.Go? && !plan.resume.limited
    ensures var s' := After(s, events);
            && run.id in s'.births
            && o.now < s'.births[run.id].start + s.cfg.maxWallMs + s.caps.depth * s.caps.wait
  {
    hide Inv, Boot, After, PlanResume, RunOk;
    AlwaysInv(s, events);
    SetupStays(s, events);
    var s' := After(s, events);
    DecidingAt(s', t);
    PlaceInChain(s', run.id);
    BirthAt(s', run.id);
    PlanWithinBudgets(s'.cfg, s'.reader, run, o.lines, cause, PlanClock(o.atDetect, o.now), o.fingerprint);
    var (b, first) := (s'.births[run.id], s'.births[s'.births[run.id].root]);
    TimesLess(b.depth - first.depth, s.caps.depth, s.caps.wait);
  }

  lemma TimesLess(n: nat, m: nat, k: nat)
    requires n <= m
    ensures n * k <= m * k
  {}

  /** A build is pushed at most once; one that was pushed has no resume armed, none planned, and no
      successor. */
  lemma PushedOnceNeverResumed(s: State, events: seq<Event>, id: string)
    requires Boot(s) && id in After(s, events).runs
    ensures var s' := After(s, events);
            && Count(s'.pushes, id) <= 1
            && (s'.runs[id].pushedAt.None? ==> Count(s'.pushes, id) == 0)
            && (s'.runs[id].pushedAt.Some? ==>
                  && s'.runs[id].pendingResume.None? && id !in s'.planned
                  && forall x | x in s'.births :: s'.births[x].owner != SuccessorOf(id))
  {
    hide Inv, Boot, After, RunOk;
    AlwaysInv(s, events);
    SetupStays(s, events);
    var s' := After(s, events);
    RunAt(s', id);
    PushedOnce(s', id);
    PushedAlone(s', id);
  }

  lemma PushedAlone(s: State, id: string)
    requires Inv(s) && id in s.runs && RunOk(s, id)
    ensures s.runs[id].pushedAt.None? ==> Count(s.pushes, id) == 0
    ensures s.runs[id].pushedAt.Some? ==>
              && s.runs[id].pendingResume.None? && id !in s.planned
              && forall x | x in s.births :: s.births[x].owner != SuccessorOf(id)
  {
    hide Inv, SetsOk, BirthsOk, RunsOk, ThreadsOk, HeldMeansCleared, Alone, StartsHeld, FitsRun, FitsPending, Count;
    InvParts(s);
    if id !in s.planned { UnplannedChildless(s, id); }
  }
}
