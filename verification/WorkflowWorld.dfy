/** What a workflow finds around it, and the verification that alone may call it done (verify,
    firstPhase and workflowParkReason of backend/usecase/workflow.go). Files, git, the run store, clocks,
    ids and the journal's disk may answer differently at every reading, numbered by a tick. */
module WorkflowWorld {
  import opened Wrappers
  import opened Ndjson
  import opened WorkflowRecord
  import B = BuildClass
  import M = MemStore
  import W = WorkItems

  datatype Target = Target(cwd: string, identity: string, track: Track, path: string)

  datatype SpawnRequest = SpawnRequest(
    prompt: string, cwd: string, configDir: Option<string>, phase: Phase, laneKey: string, engine: string, build: bool)

  datatype Spawned = Spawned(id: string, resumeCount: int)

  datatype World = World(
    root: string -> string,
    trim: string -> string,
    lower: string -> string,
    trackOf: (string, string) -> Track,
    resolve: (nat, string, string) -> Option<Target>,
    now: nat -> int,
    newId: (nat, set<string>) -> string,
    writable: nat -> bool,
    spawn: (nat, SpawnRequest) -> Option<Spawned>,
    lock: (nat, string, string) -> bool,
    runs: nat -> M.RunMap,
    resumeOf: string -> nat,
    maxResumes: nat,
    output: (nat, string) -> seq<ParsedLine>,
    reader: B.Reader,
    isParkLine: string -> bool,
    isPushLine: string -> bool,
    isPushFailure: string -> bool,
    read: (nat, string) -> Option<string>,
    isLocked: string -> bool,
    proto: (nat, string, string) -> bool,
    manifest: (nat, string, string) -> Option<(string, W.BuildManifest)>,
    samePath: (string, string, string) -> bool,
    artifact: (nat, string, string) -> bool,
    commit: (nat, string, string) -> bool,
    boxes: string -> (nat, nat))

  predicate ValidId(id: string) {
    id != "" && forall k | 0 <= k < |id| :: id[k] != '/' && id[k] != '\\'
  }

  /** What the coordinator may count on: rooted paths stay put, a target keeps its track, ids are fresh,
      and a run keeps the resume count it was made with, which the build engine bounds. */
  ghost predicate WorldOk(world: World) {
    && (forall c :: world.root(c) != "" && world.root(world.root(c)) == world.root(c))
    && (forall t :: world.trim(world.trim(t)) == world.trim(t))
    && (forall c, t :: world.trackOf(c, t) != OtherTrack)
    && (forall n, c, t :: world.resolve(n, c, t).Some? ==>
          && world.resolve(n, c, t).value.cwd == world.root(c)
          && world.resolve(n, c, t).value.track == world.trackOf(world.root(c), world.trim(t)))
    && (forall n :: world.now(n) > 0)
    && (forall n, used :: world.newId(n, used) !in used && ValidId(world.newId(n, used)))
    && (forall n, r :: world.spawn(n, r).Some? ==> world.spawn(n, r).value.id != "")
  }

  /** The run store never holds a run under another id, without an id, or past the resume cap. */
  ghost predicate RunsSane(world: World) {
    forall n :: SaneRuns(world, world.runs(n))
  }

  ghost predicate SaneRuns(world: World, runs: M.RunMap) {
    forall id | id in runs ::
      runs[id].id == id && id != "" && runs[id].resumeCount == world.resumeOf(id) <= world.maxResumes
  }

  function FirstPhase(world: World, n: nat, info: Target): Phase {
    if info.track == Plan then RPlan
    else if info.path == "" then Pickup
    else if world.read(n, info.path).Some? && world.isLocked(world.read(n, info.path).value)
         && world.proto(n, info.cwd, info.path) then Build
    else Proto
  }

  // --- what the last output says ---

  function HasRaw(reader: B.Reader, lines: seq<ParsedLine>, p: string -> bool): bool {
    exists i :: 0 <= i < |lines| && lines[i].Raw? && p(reader.text(lines[i].text))
  }

  method AnyRaw(reader: B.Reader, lines: seq<ParsedLine>, p: string -> bool) returns (found: bool)
    ensures found == HasRaw(reader, lines, p)
  {
    for i := 0 to |lines|
      invariant forall k | 0 <= k < i :: !(lines[k].Raw? && p(reader.text(lines[k].text)))
    {
      if lines[i].Raw? && p(reader.text(lines[i].text)) { return true; }
    }
    found := false;
  }

  /** The last raw line that says the build was parked. */
  function LastParkLine(world: World, lines: seq<ParsedLine>): Option<string> {
    if lines == [] then None
    else
      var l := lines[|lines| - 1];
      if l.Raw? && world.isParkLine(world.reader.text(l.text)) then Some(world.reader.text(l.text))
      else LastParkLine(world, lines[..|lines| - 1])
  }

  predicate Blocked(text: string) {
    "BLOCKED:" <= text || "HARD STOP" <= text
  }

  /** Why the child stopped short; "" when it did not. An empty park line counts as none. */
  function ParkReason(world: World, lines: seq<ParsedLine>): string {
    var line := LastParkLine(world, lines);
    var text := B.FinalText(world.reader, lines);
    if line.Some? then line.value
    else if text.Some? && Blocked(world.trim(text.value)) then world.trim(text.value)
    else ""
  }

  method WorkflowParkReason(world: World, lines: seq<ParsedLine>) returns (reason: string)
    ensures reason == ParkReason(world, lines)
  {
    hide Blocked;
    var i := |lines| - 1;
    assert lines[..|lines|] == lines;
    while i >= 0
      invariant -1 <= i < |lines|
      invariant LastParkLine(world, lines) == LastParkLine(world, lines[..i + 1])
    {
      assert lines[..i + 1][..i] == lines[..i];
      if lines[i].Raw? && world.isParkLine(world.reader.text(lines[i].text)) {
        return world.reader.text(lines[i].text);
      }
      i := i - 1;
    }
    var final := B.FinalSpokenText(world.reader, lines);
    if final.Some? {
      var trimmed := world.trim(final.value);
      if Blocked(trimmed) { return trimmed; }
    }
    reason := "";
  }

  // --- verification ---

  predicate IsDone(world: World, status: string) {
    world.lower(status) == "done"
  }

  ghost predicate StepProven(world: World, n: nat, cwd: string, step: W.ManifestStep) {
    && IsDone(world, step.status)
    && (step.artifact != "" ==> world.artifact(n, cwd, step.artifact))
    && (step.commit != "" ==> world.commit(n, cwd, step.commit))
  }

  ghost predicate SliceProven(world: World, n: nat, cwd: string, slice: W.ManifestSlice) {
    && IsDone(world, slice.status) && slice.steps != map[]
    && forall name | name in slice.steps :: StepProven(world, n, cwd, slice.steps[name])
  }

  ghost predicate HasVerdict(w: Workflow, p: Phase) {
    exists i :: 0 <= i < |w.history| && w.history[i].phase == p && w.history[i].status == PhaseDone
  }

  ghost predicate PrdFacts(world: World, n: nat, w: Workflow, path: string) {
    && world.read(n, path).Some? && world.isLocked(world.read(n, path).value) && world.proto(n, w.cwd, path)
    && world.manifest(n, w.cwd, path).Some?
    && var m := world.manifest(n, w.cwd, path).value.1;
       && m.prd != "" && world.samePath(w.cwd, m.prd, path) && m.slices != []
       && (forall s <- m.slices :: SliceProven(world, n, w.cwd, s))
       && HasVerdict(w, Build)
  }

  ghost predicate PlanFacts(world: World, n: nat, w: Workflow, path: string) {
    && world.read(n, path).Some?
    && var boxes := world.boxes(world.read(n, path).value);
       && boxes.0 != 0 && boxes.1 == boxes.0
       && HasVerdict(w, QA) && HasVerdict(w, Reviewer) && HasVerdict(w, Wrap)
  }

  /** The last build record that names a child. */
  function LastBuildChild(h: seq<PhaseRecord>): string {
    if h == [] then ""
    else if h[|h| - 1].phase == Build && h[|h| - 1].child != "" then h[|h| - 1].child
    else LastBuildChild(h[..|h| - 1])
  }

  ghost predicate PushHeld(world: World, n: nat, w: Workflow) {
    var child := LastBuildChild(w.history);
    child != "" ==> !HasRaw(world.reader, world.output(n, child), world.isPushFailure)
  }

  /** Everything that has to be true of the repository, the phases and the push for a workflow to be
      done. */
  ghost predicate Facts(world: World, n: nat, w: Workflow) {
    var info := world.resolve(n, w.cwd, w.target);
    && info.Some? && info.value.path != ""
    && (if w.track == PRD then PrdFacts(world, n, w, info.value.path) else PlanFacts(world, n, w, info.value.path))
    && PushHeld(world, n, w)
  }

  ghost predicate GoodEvidence(e: Evidence) {
    e.checkedPaths != [] && e.verifiedAt > 0
  }

  method Verdicts(h: seq<PhaseRecord>) returns (v: set<Phase>)
    ensures forall p :: p in v <==> exists i :: 0 <= i < |h| && h[i].phase == p && h[i].status == PhaseDone
  {
    v := {};
    for i := 0 to |h|
      invariant forall p :: p in v <==> exists k :: 0 <= k < i && h[k].phase == p && h[k].status == PhaseDone
    {
      if h[i].status == PhaseDone { v := v + {h[i].phase}; }
    }
  }

  method FindBuildChild(h: seq<PhaseRecord>) returns (child: string)
    ensures child == LastBuildChild(h)
  {
    var i := |h| - 1;
    assert h[..|h|] == h;
    while i >= 0
      invariant -1 <= i < |h|
      invariant LastBuildChild(h) == LastBuildChild(h[..i + 1])
    {
      assert h[..i + 1][..i] == h[..i];
      if h[i].phase == Build && h[i].child != "" { return h[i].child; }
      i := i - 1;
    }
    child := "";
  }

  /** One slice of the manifest; `commits` are the ones found so far. */
  method CheckSlice(world: World, n: nat, cwd: string, slice: W.ManifestSlice, commits: seq<string>)
    returns (doubt: Option<Doubt>, found: seq<string>)
    ensures doubt.None? <==> SliceProven(world, n, cwd, slice)
    ensures doubt.None? ==>
              && commits <= found
              && (forall c :: c in found[|commits|..] <==>
                    exists name :: name in slice.steps && slice.steps[name].commit == c && c != "")
  {
    found := commits;
    if !IsDone(world, slice.status) { return Some(SliceOpen(slice.n)), found; }
    if slice.steps == map[] { return Some(NoSteps(slice.n)), found; }
    var rest := slice.steps.Keys;
    while rest != {}
      invariant rest <= slice.steps.Keys && commits <= found
      invariant forall name | name in slice.steps && name !in rest :: StepProven(world, n, cwd, slice.steps[name])
      invariant forall c :: c in found[|commits|..] <==>
                  exists name :: name in slice.steps && name !in rest && slice.steps[name].commit == c && c != ""
      decreases rest
    {
      var name :| name in rest;
      var step := slice.steps[name];
      rest := rest - {name};
      if !IsDone(world, step.status) { return Some(StepOpen(slice.n)), found; }
      if step.artifact != "" && !world.artifact(n, cwd, step.artifact) { return Some(ArtifactMissing), found; }
      if step.commit == "" { continue; }
      if !world.commit(n, cwd, step.commit) { return Some(CommitMissing), found; }
      ghost var before := found;
      found := found + [step.commit];
      assert found[|commits|..] == before[|commits|..] + [step.commit];
    }
    doubt := None;
  }

  method CheckPrd(world: World, n: nat, w: Workflow, path: string, verdicts: set<Phase>)
    returns (doubt: Option<Doubt>, statePath: string, commits: seq<string>)
    requires forall p :: p in verdicts <==> HasVerdict(w, p)
    ensures doubt.None? <==> PrdFacts(world, n, w, path)
    ensures doubt.None? ==>
              && world.manifest(n, w.cwd, path).Some? && statePath == world.manifest(n, w.cwd, path).value.0
              && forall c :: c in commits <==> CommitNamed(world.manifest(n, w.cwd, path).value.1.slices, c)
  {
    hide SliceProven, HasVerdict, CommitNamed, CommitNamedIn;
    statePath, commits := "", [];
    if world.read(n, path).None? || !world.isLocked(world.read(n, path).value) {
      return Some(NotLocked), statePath, commits;
    }
    if !world.proto(n, w.cwd, path) { return Some(NoPreview), statePath, commits; }
    if world.manifest(n, w.cwd, path).None? { return Some(NoManifest), statePath, commits; }
    var found := world.manifest(n, w.cwd, path).value;
    statePath := found.0;
    var m := found.1;
    if m.prd == "" || !world.samePath(w.cwd, m.prd, path) { return Some(OtherPrd), statePath, commits; }
    if |m.slices| == 0 { return Some(NoSlices), statePath, commits; }
    NoneNamed();
    for i := 0 to |m.slices|
      invariant forall k | 0 <= k < i :: SliceProven(world, n, w.cwd, m.slices[k])
      invariant forall c :: c in commits <==> CommitNamed(m.slices[..i], c)
    {
      var bad, more := CheckSlice(world, n, w.cwd, m.slices[i], commits);
      if bad.Some? { return bad, statePath, commits; }
      NamedMore(m.slices, i, commits, more);
      commits := more;
    }
    assert m.slices[..|m.slices|] == m.slices;
    if Build !in verdicts { return Some(NoBuildVerdict), statePath, commits; }
    doubt := None;
  }

  ghost predicate CommitNamedIn(slice: W.ManifestSlice, c: string) {
    exists name :: name in slice.steps && slice.steps[name].commit == c && c != ""
  }

  ghost predicate CommitNamed(slices: seq<W.ManifestSlice>, c: string) {
    exists k :: 0 <= k < |slices| && CommitNamedIn(slices[k], c)
  }

  lemma NoneNamed()
    ensures forall c :: !CommitNamed([], c)
  {}

  lemma NamedMore(slices: seq<W.ManifestSlice>, i: nat, commits: seq<string>, more: seq<string>)
    requires i < |slices| && commits <= more
    requires forall c :: c in commits <==> CommitNamed(slices[..i], c)
    requires forall c :: c in more[|commits|..] <==>
                          exists name :: name in slices[i].steps && slices[i].steps[name].commit == c && c != ""
    ensures forall c :: c in more <==> CommitNamed(slices[..i + 1], c)
  {
    forall c ensures c in more <==> CommitNamed(slices[..i + 1], c) {
      assert more == commits + more[|commits|..];
      assert c in more[|commits|..] <==> CommitNamedIn(slices[i], c);
      NamedSplit(slices, i, c);
    }
  }

  lemma NamedSplit(slices: seq<W.ManifestSlice>, i: nat, c: string)
    requires i < |slices|
    ensures CommitNamed(slices[..i + 1], c) <==> CommitNamed(slices[..i], c) || CommitNamedIn(slices[i], c)
  {
    hide CommitNamedIn;
    if CommitNamedIn(slices[i], c) { assert slices[..i + 1][i] == slices[i]; }
    if CommitNamed(slices[..i], c) {
      var k :| 0 <= k < i && CommitNamedIn(slices[..i][k], c);
      assert slices[..i + 1][k] == slices[..i][k];
    }
  }

  method CheckPlan(world: World, n: nat, w: Workflow, path: string, verdicts: set<Phase>) returns (doubt: Option<Doubt>)
    requires forall p :: p in verdicts <==> HasVerdict(w, p)
    ensures doubt.None? <==> PlanFacts(world, n, w, path)
  {
    hide HasVerdict;
    if world.read(n, path).None? { return Some(PlanMissing); }
    var boxes := world.boxes(world.read(n, path).value);
    if boxes.0 == 0 || boxes.1 != boxes.0 { return Some(GatesOpen); }
    if QA !in verdicts { return Some(NoVerdict(QA)); }
    if Reviewer !in verdicts { return Some(NoVerdict(Reviewer)); }
    if Wrap !in verdicts { return Some(NoVerdict(Wrap)); }
    doubt := None;
  }

  /** Evidence is found exactly when every fact holds; it names what was checked and when. */
  method VerifyWorkflow(world: World, n: nat, w: Workflow) returns (evidence: Option<Evidence>, doubt: Doubt)
    ensures evidence.Some? <==> Facts(world, n, w)
    ensures evidence.Some? ==>
              && evidence.value.checkedPaths != [] && evidence.value.verifiedAt == world.now(n)
              && world.resolve(n, w.cwd, w.target).Some?
              && evidence.value.checkedPaths[0] == world.resolve(n, w.cwd, w.target).value.path
              && (forall p :: p in evidence.value.verdicts <==> HasVerdict(w, p))
              && (w.track == PRD ==>
                    var m := world.manifest(n, w.cwd, evidence.value.checkedPaths[0]);
                    m.Some? && forall c :: c in evidence.value.commitIds <==> CommitNamed(m.value.1.slices, c))
  {
    hide PrdFacts, PlanFacts, CommitNamed;
    doubt := NoTarget;
    var info := world.resolve(n, w.cwd, w.target);
    if info.None? || info.value.path == "" { return None, NoTarget; }
    var path := info.value.path;
    var verdicts := Verdicts(w.history);
    var paths, commits := [path], [];
    if w.track == PRD {
      var bad, statePath, found := CheckPrd(world, n, w, path, verdicts);
      if bad.Some? { return None, bad.value; }
      paths, commits := paths + [statePath], found;
    } else {
      var bad := CheckPlan(world, n, w, path, verdicts);
      if bad.Some? { return None, bad.value; }
    }
    var child := FindBuildChild(w.history);
    if child != "" {
      var failed := AnyRaw(world.reader, world.output(n, child), world.isPushFailure);
      if failed { return None, PushFailed; }
    }
    evidence := Some(Evidence(paths, commits, verdicts, world.now(n)));
  }
}
