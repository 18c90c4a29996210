/** The resume point of a build manifest (backend/domain/workitems.go): the slices sorted in place by
    number, the first slice that is not verifiably finished, and its first unverified step. */
module WorkItems {
  import opened Wrappers

  datatype ManifestStep = ManifestStep(status: string, artifact: string, commit: string)

  datatype ManifestSlice = ManifestSlice(n: int, title: string, status: string, steps: map<string, ManifestStep>)

  datatype BuildManifest = BuildManifest(prd: string, branch: string, commitPolicy: string, slices: seq<ManifestSlice>)

  datatype ResumeTarget = ResumeTarget(slice: int, step: string)

  /** What the repository holds: the files that exist and the commits that do. */
  datatype Repo = Repo(files: set<string>, commits: set<string>)

  const STEP_ORDER := ["rplan", "approved", "qa", "reviewer"]

  // --- the stable sort ---

  /** The slices numbered n, in order. */
  function WithN(s: seq<ManifestSlice>, n: int): seq<ManifestSlice> {
    if s == [] then []
    else (if s[0].n == n then [s[0]] else []) + WithN(s[1..], n)
  }

  ghost predicate SortedByN(s: seq<ManifestSlice>) {
    forall i, j | 0 <= i < j < |s| :: s[i].n <= s[j].n
  }

  /** Same slices, and those of one number in the same order. */
  ghost predicate SameByN(a: seq<ManifestSlice>, b: seq<ManifestSlice>) {
    forall n :: WithN(a, n) == WithN(b, n)
  }

  lemma {:induction false} WithNConcat(a: seq<ManifestSlice>, b: seq<ManifestSlice>, n: int)
    ensures WithN(a + b, n) == WithN(a, n) + WithN(b, n)
  {
    hide WithN;
    WithNFirst(a, n);
    if a == [] {
      assert a + b == b && [] + WithN(b, n) == WithN(b, n);
    } else {
      assert (a + b)[0] == a[0] && (a + b)[1..] == a[1..] + b;
      WithNConcat(a[1..], b, n);
      WithNFirst(a + b, n);
      Assoc(if a[0].n == n then [a[0]] else [], WithN(a[1..], n), WithN(b, n));
    }
  }

  lemma WithNFirst(s: seq<ManifestSlice>, n: int)
    ensures WithN(s, n) == if s == [] then [] else (if s[0].n == n then [s[0]] else []) + WithN(s[1..], n)
  {}

  lemma Assoc<T>(a: seq<T>, b: seq<T>, c: seq<T>)
    ensures a + (b + c) == (a + b) + c
  {}

  lemma WithNPair(x: ManifestSlice, y: ManifestSlice, n: int)
    requires x.n != y.n
    ensures WithN([x, y], n) == WithN([y, x], n)
  {
    assert [x, y][1..] == [y] && [y, x][1..] == [x] && [x][1..] == [] && [y][1..] == [];
  }

  /** Swapping neighbours with different numbers keeps every number's slices in order. */
  lemma SwapSame(a: seq<ManifestSlice>, j: nat)
    requires 0 < j < |a| && a[j].n != a[j - 1].n
    ensures SameByN(a, a[j := a[j - 1]][j - 1 := a[j]])
  {
    var b := a[j := a[j - 1]][j - 1 := a[j]];
    var front, back := a[..j - 1], a[j + 1..];
    assert a == front + ([a[j - 1], a[j]] + back);
    assert b == front + ([a[j], a[j - 1]] + back);
    forall n ensures WithN(a, n) == WithN(b, n) {
      WithNPair(a[j - 1], a[j], n);
      WithNConcat(front, [a[j - 1], a[j]] + back, n);
      WithNConcat(front, [a[j], a[j - 1]] + back, n);
      WithNConcat([a[j - 1], a[j]], back, n);
      WithNConcat([a[j], a[j - 1]], back, n);
    }
  }

  lemma SameSelf(a: seq<ManifestSlice>)
    ensures SameByN(a, a)
  {}

  method SwapDown(a: array<ManifestSlice>, j: nat)
    requires 0 < j < a.Length && a[j].n < a[j - 1].n
    modifies a
    ensures a[j] == old(a[j - 1]) && a[j - 1] == old(a[j])
    ensures forall k | 0 <= k < a.Length && k != j && k != j - 1 :: a[k] == old(a[k])
    ensures SameByN(old(a[..]), a[..])
  {
    hide SameByN, WithN;
    ghost var before := a[..];
    SwapSame(before, j);
    a[j], a[j - 1] := a[j - 1], a[j];
    assert a[..] == before[j := before[j - 1]][j - 1 := before[j]];
  }

  /** Insertion sort on a copy. */
  method SortedSlices(input: seq<ManifestSlice>) returns (out: array<ManifestSlice>)
    ensures fresh(out)
    ensures SortedByN(out[..]) && SameByN(input, out[..])
  {
    hide SameByN, WithN;
    out := new ManifestSlice[|input|](i requires 0 <= i < |input| => input[i]);
    assert out[..] == input;
    SameSelf(input);
    var i := 1;
    while i < out.Length
      invariant 1 <= i
      invariant forall p, q | 0 <= p < q < i && q < out.Length :: out[p].n <= out[q].n
      invariant SameByN(input, out[..])
    {
      var j := i;
      while j > 0 && out[j].n < out[j - 1].n
        invariant 0 <= j <= i
        invariant forall p, q | 0 <= p < q <= i && q != j :: out[p].n <= out[q].n
        invariant SameByN(input, out[..])
      {
        ghost var before := out[..];
        SwapDown(out, j);
        SameTrans(input, before, out[..]);
        j := j - 1;
      }
      i := i + 1;
    }
  }

  lemma SameTrans(a: seq<ManifestSlice>, b: seq<ManifestSlice>, c: seq<ManifestSlice>)
    requires SameByN(a, b) && SameByN(b, c)
    ensures SameByN(a, c)
  {}

  lemma {:induction false} WithNMember(s: seq<ManifestSlice>, k: nat)
    requires k < |s|
    ensures s[k] in WithN(s, s[k].n)
  {
    if k > 0 { WithNMember(s[1..], k - 1); }
  }

  lemma {:induction false} WithNOnly(s: seq<ManifestSlice>, n: int, x: ManifestSlice)
    requires x in WithN(s, n)
    ensures x.n == n && x in s
  {
    if s[0].n != n || x != s[0] { WithNOnly(s[1..], n, x); }
  }

  /** Sorted and same-by-number leaves no choice: there is one stable sort. */
  lemma {:induction false} StableSortUnique(a: seq<ManifestSlice>, b: seq<ManifestSlice>)
    requires SortedByN(a) && SortedByN(b) && SameByN(a, b)
    ensures a == b
  {
    hide WithN;
    if a == [] {
      if b != [] { NothingSame(b); }
    } else {
      SameHead(a, b);
      SameTails(a, b);
      StableSortUnique(a[1..], b[1..]);
      assert a == [a[0]] + a[1..] && b == [b[0]] + b[1..];
    }
  }

  lemma NothingSame(b: seq<ManifestSlice>)
    requires SameByN([], b)
    ensures b == []
  {
    hide WithN;
    if b != [] {
      WithNMember(b, 0);
      WithNFirst([], b[0].n);
    }
  }

  lemma SameHead(a: seq<ManifestSlice>, b: seq<ManifestSlice>)
    requires a != [] && SortedByN(a) && SortedByN(b) && SameByN(a, b)
    ensures b != [] && a[0] == b[0]
  {
    hide WithN;
    WithNMember(a, 0);
    assert WithN(a, a[0].n) == WithN(b, a[0].n);
    WithNOnly(b, a[0].n, a[0]);
    WithNMember(b, 0);
    assert WithN(a, b[0].n) == WithN(b, b[0].n);
    WithNOnly(a, b[0].n, b[0]);
    assert a[0].n == b[0].n;
    WithNFirst(a, a[0].n);
    WithNFirst(b, b[0].n);
    assert WithN(a, a[0].n)[0] == a[0] && WithN(b, b[0].n)[0] == b[0];
  }

  lemma SameTails(a: seq<ManifestSlice>, b: seq<ManifestSlice>)
    requires a != [] && b != [] && a[0] == b[0] && SameByN(a, b)
    ensures SameByN(a[1..], b[1..])
  {
    hide WithN;
    forall n ensures WithN(a[1..], n) == WithN(b[1..], n) {
      WithNFirst(a, n);
      WithNFirst(b, n);
      var head := if a[0].n == n then [a[0]] else [];
      assert WithN(a, n) == WithN(b, n);
      assert WithN(a, n)[|head|..] == WithN(a[1..], n);
      assert WithN(b, n)[|head|..] == WithN(b[1..], n);
    }
  }

  // --- what is verifiably finished ---

  /** A step counts only when it is marked done and its durable artifact is there; qa and reviewer
      leave none. */
  predicate StepVerified(step: string, slice: ManifestSlice, repo: Repo) {
    step in slice.steps && slice.steps[step].status == "done" &&
    if step == "rplan" then slice.steps[step].artifact != "" && slice.steps[step].artifact in repo.files
    else if step == "approved" then slice.steps[step].commit != "" && slice.steps[step].commit in repo.commits
    else false
  }

  predicate Finished(slice: ManifestSlice, repo: Repo) {
    slice.status == "done" && StepVerified("approved", slice, repo)
  }

  function FirstStep(slice: ManifestSlice, repo: Repo): string {
    if !StepVerified("rplan", slice, repo) then "rplan"
    else if !StepVerified("approved", slice, repo) then "approved"
    else "qa"
  }

  /** Slice i is the resume point: unfinished, and before every other unfinished one by number, then
      by position. */
  ghost predicate FirstOpen(s: seq<ManifestSlice>, repo: Repo, i: nat) {
    && i < |s| && !Finished(s[i], repo)
    && forall k | 0 <= k < |s| && !Finished(s[k], repo) :: s[i].n < s[k].n || (s[i].n == s[k].n && i <= k)
  }

  predicate AllFinished(s: seq<ManifestSlice>, repo: Repo) {
    forall k | 0 <= k < |s| :: Finished(s[k], repo)
  }

  lemma {:induction false} FirstOpenExists(s: seq<ManifestSlice>, repo: Repo) returns (i: nat)
    requires !AllFinished(s, repo)
    ensures FirstOpen(s, repo, i)
  {
    var n := |s| - 1;
    var front := s[..n];
    assert forall k | 0 <= k < n :: front[k] == s[k];
    if AllFinished(front, repo) {
      i := n;
      assert forall k | 0 <= k < n :: Finished(front[k], repo);
    } else {
      i := FirstOpenExists(front, repo);
      assert forall k | 0 <= k < n && !Finished(s[k], repo) :: !Finished(front[k], repo);
      if !Finished(s[n], repo) && s[n].n < s[i].n { i := n; }
    }
  }

  /** x is the first unfinished slice of the list. */
  ghost predicate Leads(w: seq<ManifestSlice>, repo: Repo, x: ManifestSlice) {
    w != [] && !Finished(x, repo) && (w[0] == x || (Finished(w[0], repo) && Leads(w[1..], repo, x)))
  }

  lemma {:induction false} LeadsUnique(w: seq<ManifestSlice>, repo: Repo, x: ManifestSlice, y: ManifestSlice)
    requires Leads(w, repo, x) && Leads(w, repo, y)
    ensures x == y
  {
    if w[0] != x && w[0] != y { LeadsUnique(w[1..], repo, x, y); }
  }

  /** The first open slice leads the slices of its number. */
  lemma {:induction false} FirstOpenWithN(s: seq<ManifestSlice>, repo: Repo, i: nat)
    requires i < |s| && !Finished(s[i], repo)
    requires forall k | 0 <= k < i && s[k].n == s[i].n :: Finished(s[k], repo)
    ensures Leads(WithN(s, s[i].n), repo, s[i])
  {
    hide Finished;
    if i > 0 {
      assert s[1..][i - 1] == s[i];
      FirstOpenWithN(s[1..], repo, i - 1);
      var w, rest := WithN(s, s[i].n), WithN(s[1..], s[i].n);
      if s[0].n == s[i].n {
        assert w == [s[0]] + rest && w[1..] == rest;
      } else {
        assert w == rest;
      }
    }
  }

  /** Stable sorting does not change which slice is the resume point. */
  lemma FirstOpenSorted(s: seq<ManifestSlice>, t: seq<ManifestSlice>, repo: Repo, i: nat, k: nat)
    requires SameByN(s, t)
    requires FirstOpen(s, repo, i)
    requires FirstOpen(t, repo, k)
    ensures s[i] == t[k]
  {
    FirstOpenWithN(s, repo, i);
    FirstOpenWithN(t, repo, k);
    WithNMember(s, i);
    WithNMember(t, k);
    assert WithN(s, s[i].n) == WithN(t, s[i].n) && WithN(s, t[k].n) == WithN(t, t[k].n);
    WithNOnly(t, s[i].n, s[i]);
    WithNOnly(s, t[k].n, t[k]);
    var a :| 0 <= a < |t| && t[a] == s[i];
    var b :| 0 <= b < |s| && s[b] == t[k];
    assert !Finished(t[a], repo) && !Finished(s[b], repo);
    assert s[i].n == t[k].n;
    LeadsUnique(WithN(s, s[i].n), repo, s[i], t[k]);
  }

  /** The (slice, step) an interrupted build resumes at. None means there is no per-step manifest or
      everything is verifiably finished; otherwise the slice is the first open one and the step its
      first unverified one. */
  method ComputeResumeTarget(m: Option<BuildManifest>, repo: Repo) returns (r: Option<ResumeTarget>)
    ensures r.None? <==> m.None? || m.value.commitPolicy != "per-step" || AllFinished(m.value.slices, repo)
    ensures forall i: nat | r.Some? && FirstOpen(m.value.slices, repo, i) ::
              r.value == ResumeTarget(m.value.slices[i].n, FirstStep(m.value.slices[i], repo))
  {
    if m.None? || m.value.commitPolicy != "per-step" { return None; }
    ghost var s := m.value.slices;
    var sorted := SortedSlices(m.value.slices);
    for k := 0 to sorted.Length
      invariant forall p | 0 <= p < k :: Finished(sorted[p], repo)
    {
      var slice := sorted[k];
      if Finished(slice, repo) { continue; }
      assert FirstOpen(sorted[..], repo, k);
      forall i: nat | FirstOpen(s, repo, i) ensures s[i] == slice {
        FirstOpenSorted(s, sorted[..], repo, i, k);
      }
      WithNMember(sorted[..], k);
      assert WithN(s, slice.n) == WithN(sorted[..], slice.n);
      WithNOnly(s, slice.n, slice);
      hide StepVerified, Finished, SameByN, SortedByN, WithN, AllFinished;
      for j := 0 to |STEP_ORDER|
        invariant j <= 2
        invariant j >= 1 ==> StepVerified("rplan", slice, repo)
        invariant j >= 2 ==> StepVerified("approved", slice, repo)
      {
        assert STEP_ORDER[0] == "rplan" && STEP_ORDER[1] == "approved" && STEP_ORDER[2] == "qa";
        var step := STEP_ORDER[j];
        if step == "qa" || step == "reviewer" { return Some(ResumeTarget(slice.n, step)); }
        if !StepVerified(step, slice, repo) { return Some(ResumeTarget(slice.n, step)); }
      }
      return Some(ResumeTarget(slice.n, "qa"));
    }
    forall i | 0 <= i < |s| ensures Finished(s[i], repo) {
      WithNMember(s, i);
      assert WithN(s, s[i].n) == WithN(sorted[..], s[i].n);
      WithNOnly(sorted[..], s[i].n, s[i]);
    }
    r := None;
  }

  // --- the target never moves back ---

  /** Progress of one slice: done stays done, and a recorded artifact or commit stays recorded. */
  ghost predicate SliceAdvances(a: ManifestSlice, b: ManifestSlice) {
    && a.n == b.n
    && (a.status == "done" ==> b.status == "done")
    && forall step | step in a.steps && a.steps[step].status == "done" ::
         && step in b.steps && b.steps[step].status == "done"
         && (a.steps[step].artifact != "" ==> b.steps[step].artifact == a.steps[step].artifact)
         && (a.steps[step].commit != "" ==> b.steps[step].commit == a.steps[step].commit)
  }

  /** Progress of a manifest and its repository: slices advance, files and commits only appear. */
  ghost predicate Advances(s: seq<ManifestSlice>, repo: Repo, t: seq<ManifestSlice>, repo': Repo) {
    && |s| == |t|
    && (forall i | 0 <= i < |s| :: SliceAdvances(s[i], t[i]))
    && repo.files <= repo'.files && repo.commits <= repo'.commits
  }

  function Rank(step: string): nat {
    if step == "rplan" then 0 else if step == "approved" then 1 else 2
  }

  ghost predicate Back(a: ResumeTarget, b: ResumeTarget) {
    b.slice < a.slice || (b.slice == a.slice && Rank(b.step) < Rank(a.step))
  }

  ghost predicate Distinct(s: seq<ManifestSlice>) {
    forall i, j | 0 <= i < j < |s| :: s[i].n != s[j].n
  }

  function TargetOf(s: seq<ManifestSlice>, repo: Repo, i: nat): ResumeTarget
    requires i < |s|
  {
    ResumeTarget(s[i].n, FirstStep(s[i], repo))
  }

  lemma SliceMonotone(a: ManifestSlice, repo: Repo, b: ManifestSlice, repo': Repo)
    requires SliceAdvances(a, b) && repo.files <= repo'.files && repo.commits <= repo'.commits
    ensures Finished(a, repo) ==> Finished(b, repo')
    ensures Rank(FirstStep(a, repo)) <= Rank(FirstStep(b, repo'))
  {}

  /** With distinct slice numbers, progress moves the target forward in (slice, step) order, or ends
      it: what was finished stays finished. */
  lemma TargetAdvances(s: seq<ManifestSlice>, repo: Repo, t: seq<ManifestSlice>, repo': Repo, i: nat, k: nat)
    requires Advances(s, repo, t, repo') && Distinct(s)
    requires FirstOpen(s, repo, i) && FirstOpen(t, repo', k)
    ensures !Back(TargetOf(s, repo, i), TargetOf(t, repo', k))
  {
    SliceMonotone(s[k], repo, t[k], repo');
    SliceMonotone(s[i], repo, t[i], repo');
    assert !Finished(s[k], repo);
  }

  lemma FinishedStays(s: seq<ManifestSlice>, repo: Repo, t: seq<ManifestSlice>, repo': Repo)
    requires Advances(s, repo, t, repo') && AllFinished(s, repo)
    ensures AllFinished(t, repo')
  {
    forall k | 0 <= k < |t| ensures Finished(t[k], repo') {
      SliceMonotone(s[k], repo, t[k], repo');
    }
  }

  /** Some progress of some manifest with these slice numbers moves the target back. */
  ghost predicate CanMoveBack(ns: seq<int>) {
    exists s, repo, t, repo', i: nat, k: nat ::
      MovesBack(ns, s, repo, t, repo', i, k)
  }

  ghost predicate MovesBack(ns: seq<int>, s: seq<ManifestSlice>, repo: Repo,
                            t: seq<ManifestSlice>, repo': Repo, i: nat, k: nat) {
    && |s| == |ns| && (forall j | 0 <= j < |ns| :: s[j].n == ns[j])
    && Advances(s, repo, t, repo')
    && FirstOpen(s, repo, i) && FirstOpen(t, repo', k)
    && Back(TargetOf(s, repo, i), TargetOf(t, repo', k))
  }

  /** The code promises a resume point that only advances. That holds exactly for manifests whose
      slice numbers are pairwise different: with a repeated number, finishing the first of the two
      slices sends the step back from `approved` to the second one's `rplan`. */
  lemma NeverMovesBackIffDistinct(ns: seq<int>)
    ensures !CanMoveBack(ns) <==> forall i, j | 0 <= i < j < |ns| :: ns[i] != ns[j]
  {
    if i, j :| 0 <= i < j < |ns| && ns[i] == ns[j] {
      RepeatedNumberMovesBack(ns, i, j);
    } else {
      forall s, repo, t, repo', i: nat, k: nat ensures !MovesBack(ns, s, repo, t, repo', i, k) {
        DistinctAdvances(ns, s, repo, t, repo', i, k);
      }
    }
  }

  lemma DistinctAdvances(ns: seq<int>, s: seq<ManifestSlice>, repo: Repo, t: seq<ManifestSlice>, repo': Repo, i: nat, k: nat)
    requires forall i, j | 0 <= i < j < |ns| :: ns[i] != ns[j]
    ensures !MovesBack(ns, s, repo, t, repo', i, k)
  {
    hide Advances, FirstOpen, Back, TargetOf;
    if |s| == |ns| && (forall j | 0 <= j < |ns| :: s[j].n == ns[j]) && Advances(s, repo, t, repo')
       && FirstOpen(s, repo, i) && FirstOpen(t, repo', k) {
      TargetAdvances(s, repo, t, repo', i, k);
    }
  }

  const DONE_STEPS := map["rplan" := ManifestStep("done", "p", ""), "approved" := ManifestStep("done", "", "c")]

  lemma RepeatedNumberMovesBack(ns: seq<int>, i: nat, j: nat)
    requires i < j < |ns| && ns[i] == ns[j]
    ensures CanMoveBack(ns)
  {
    var repo := Repo({"p"}, {"c"});
    var planned := map["rplan" := ManifestStep("done", "p", "")];
    var s := seq(|ns|, k requires 0 <= k < |ns| =>
      if k == i then ManifestSlice(ns[k], "", "", planned)
      else if k == j then ManifestSlice(ns[k], "", "", map[])
      else ManifestSlice(ns[k], "", "done", DONE_STEPS));
    var t := s[i := ManifestSlice(ns[i], "", "done", DONE_STEPS)];
    forall k | 0 <= k < |ns| ensures k != i && k != j ==> Finished(s[k], repo) {}
    assert FirstOpen(s, repo, i);
    assert FirstOpen(t, repo, j);
    assert Advances(s, repo, t, repo);
    assert TargetOf(s, repo, i).step == "approved" && TargetOf(t, repo, j).step == "rplan";
    assert MovesBack(ns, s, repo, t, repo, i, j);
  }
}
