/** What the repository commands preserve: well-formedness, the commits already there, and
    reachability between them. */
module RepositoryFacts {
  import opened Text
  import opened Contracts
  import opened Document
  import opened Repository
  import opened Decisions
  import opened Transitions

  // -------------------------------------------------------- adding a commit

  predicate Extends(small: map<string, Commit>, big: map<string, Commit>) {
    forall c :: c in small ==> c in big && big[c] == small[c]
  }

  lemma AddedCommitIsWellFormed(cs: map<string, Commit>, c: string, parents: seq<string>)
    requires WellFormedCommits(cs) && c !in cs && IsCanonicalCommit(c)
    requires forall p :: p in parents ==> p in cs
    ensures WellFormedCommits(AddCommit(cs, c, parents))
    ensures Extends(cs, AddCommit(cs, c, parents))
  {
    var big := AddCommit(cs, c, parents);
    forall d, i | d in big && 0 <= i < |big[d].parents|
      ensures big[d].parents[i] in big && big[big[d].parents[i]].gen < big[d].gen
    {
      if d == c {
        assert parents[i] in parents;
      }
    }
  }

  lemma {:induction false} GrowthIsWellFormed(cs: map<string, Commit>, added: seq<NewCommit>)
    requires WellFormedCommits(cs) && CommitsFit(cs, added)
    ensures WellFormedCommits(Grow(cs, added))
    ensures Extends(cs, Grow(cs, added))
    decreases added
  {
    if added != [] {
      AddedCommitIsWellFormed(cs, added[0].name, added[0].parents);
      GrowthIsWellFormed(AddCommit(cs, added[0].name, added[0].parents), added[1..]);
    }
  }

  // ----------------------------------------------------------- reachability

  lemma {:induction false} ReachesStays(cs: map<string, Commit>, big: map<string, Commit>, d: string, a: string)
    requires WellFormedCommits(cs) && Extends(cs, big) && d in cs
    ensures Reaches(cs, d, a) == Reaches(big, d, a)
    decreases cs[d].gen
  {
    forall p | p in cs[d].parents
      ensures p in cs && cs[p].gen < cs[d].gen && Reaches(cs, p, a) == Reaches(big, p, a)
    {
      var i :| 0 <= i < |cs[d].parents| && cs[d].parents[i] == p;
      ReachesStays(cs, big, p, a);
    }
  }

  lemma {:induction false} ReachesTransitive(cs: map<string, Commit>, d: string, m: string, a: string)
    requires Reaches(cs, d, m) && Reaches(cs, m, a)
    ensures Reaches(cs, d, a)
    decreases if d in cs then cs[d].gen else 0
  {
    if d != m {
      var p :| p in cs[d].parents && p in cs && cs[p].gen < cs[d].gen && Reaches(cs, p, m);
      ReachesTransitive(cs, p, m, a);
    }
  }

  /** An ancestor has a smaller generation number, so ancestry has no cycles. */
  lemma {:induction false} AncestorIsOlder(cs: map<string, Commit>, d: string, a: string)
    requires Reaches(cs, d, a)
    ensures a in cs && d in cs && (a != d ==> cs[a].gen < cs[d].gen)
    decreases if d in cs then cs[d].gen else 0
  {
    if d != a {
      var p :| p in cs[d].parents && p in cs && cs[p].gen < cs[d].gen && Reaches(cs, p, a);
      AncestorIsOlder(cs, p, a);
    }
  }

  // -------------------------------------------------------- what it computes

  /** A walk from commit to parent. */
  predicate IsWalk(cs: map<string, Commit>, walk: seq<string>) {
    && walk != [] && (forall k :: 0 <= k < |walk| ==> walk[k] in cs)
    && forall k :: 0 <= k < |walk| - 1 ==> walk[k + 1] in cs[walk[k]].parents
  }

  lemma {:induction false} ReachedByWalk(cs: map<string, Commit>, d: string, a: string) returns (walk: seq<string>)
    requires Reaches(cs, d, a)
    ensures IsWalk(cs, walk) && walk[0] == d && walk[|walk| - 1] == a
    decreases cs[d].gen
  {
    if d == a {
      walk := [d];
    } else {
      var p :| p in cs[d].parents && p in cs && cs[p].gen < cs[d].gen && Reaches(cs, p, a);
      var rest := ReachedByWalk(cs, p, a);
      walk := [d] + rest;
      assert forall k :: 1 <= k < |walk| ==> walk[k] == rest[k - 1];
    }
  }

  lemma {:induction false} WalkReaches(cs: map<string, Commit>, walk: seq<string>)
    requires WellFormedCommits(cs) && IsWalk(cs, walk)
    ensures Reaches(cs, walk[0], walk[|walk| - 1])
  {
    if |walk| > 1 {
      var rest := walk[1..];
      assert forall k :: 0 <= k < |rest| ==> rest[k] == walk[k + 1];
      WalkReaches(cs, rest);
      var i :| 0 <= i < |cs[walk[0]].parents| && cs[walk[0]].parents[i] == walk[1];
    }
  }

  /** Reachability is what it stands for: there is a walk from commit to parent. */
  lemma ReachesExactly(cs: map<string, Commit>, d: string, a: string)
    requires WellFormedCommits(cs)
    ensures Reaches(cs, d, a) <==> exists walk :: IsWalk(cs, walk) && walk[0] == d && walk[|walk| - 1] == a
  {
    if Reaches(cs, d, a) {
      var walk := ReachedByWalk(cs, d, a);
    }
    if walk :| IsWalk(cs, walk) && walk[0] == d && walk[|walk| - 1] == a {
      WalkReaches(cs, walk);
    }
  }

  /** The first-parent chain goes from the commit to a root, and nowhere but to first parents. */
  lemma {:induction false} FirstParentsExactly(cs: map<string, Commit>, d: string)
    requires WellFormedCommits(cs) && d in cs
    ensures var chain := FirstParents(cs, d);
      && chain != [] && chain[0] == d && cs[chain[|chain| - 1]].parents == []
      && forall k :: 0 <= k < |chain| - 1 ==> cs[chain[k]].parents != [] && chain[k + 1] == cs[chain[k]].parents[0]
    decreases cs[d].gen
  {
    if cs[d].parents != [] {
      assert cs[d].parents[0] in cs && cs[cs[d].parents[0]].gen < cs[d].gen;
      FirstParentsExactly(cs, cs[d].parents[0]);
      var chain, rest := FirstParents(cs, d), FirstParents(cs, cs[d].parents[0]);
      assert chain == [d] + rest;
      assert forall k :: 1 <= k < |chain| ==> chain[k] == rest[k - 1];
    }
  }

  /** The merge found is the first that is listed. */
  lemma {:induction false} FirstMergeIsFirst(cs: map<string, Commit>, candidates: seq<string>, task: string)
    requires FirstMergeOf(cs, candidates, task).Some?
    ensures exists k :: 0 <= k < |candidates| && FirstMergeOf(cs, candidates, task) == Some(candidates[k])
                        && forall j :: 0 <= j < k ==> !IsMergeOf(cs, candidates[j], task)
  {
    if !IsMergeOf(cs, candidates[0], task) {
      FirstMergeIsFirst(cs, candidates[1..], task);
      var k :| 0 <= k < |candidates[1..]| && FirstMergeOf(cs, candidates[1..], task) == Some(candidates[1..][k])
               && forall j :: 0 <= j < k ==> !IsMergeOf(cs, candidates[1..][j], task);
      assert FirstMergeOf(cs, candidates, task) == Some(candidates[k + 1]);
      assert forall j :: 1 <= j < k + 1 ==> candidates[j] == candidates[1..][j - 1];
    }
  }

  // ------------------------------------------------------- command by command

  lemma BranchesStillPoint(branches: map<string, string>, cs: map<string, Commit>, big: map<string, Commit>, b: string, c: string)
    requires BranchesPoint(branches, cs) && Extends(cs, big) && c in big
    ensures BranchesPoint(branches[b := c], big)
  {
  }

  lemma SameBranchStillFits(trees: map<string, Worktree>, branches: set<string>, mainBranch: string, path: string, w: Worktree)
    requires TreesFit(trees, branches, mainBranch) && path in trees && w.branch == trees[path].branch
    ensures TreesFit(trees[path := w], branches, mainBranch)
  {
  }

  lemma EditKeeps(g: Git, path: string, e: Edit)
    requires WellFormed(g) && EditFits(g, e)
    ensures WellFormed(ApplyEdit(g, path, e))
    ensures Extends(g.commits, ApplyEdit(g, path, e).commits)
    ensures ApplyEdit(g, path, e).mainBranch == g.mainBranch
    ensures MainHead(ApplyEdit(g, path, e)) == MainHead(g)
    ensures path in g.trees ==>
              path in ApplyEdit(g, path, e).trees
              && ApplyEdit(g, path, e).trees[path].branch == g.trees[path].branch
              && HeadAt(ApplyEdit(g, path, e), path) == Some(TipAfter(HeadAt(g, path).value, e))
  {
    if path in g.trees {
      var tip, t := HeadAt(g, path).value, g.trees[path];
      GrowthIsWellFormed(g.commits, e.commits);
      BranchesStillPoint(g.branches, g.commits, Grow(g.commits, e.commits), t.branch, TipAfter(tip, e));
      SameBranchStillFits(g.trees, g.branches.Keys, g.mainBranch, path, t.(status := e.status));
      assert g.branches[t.branch := TipAfter(tip, e)].Keys == g.branches.Keys;
    }
  }

  lemma NewTreeFits(trees: map<string, Worktree>, branches: set<string>, mainBranch: string, path: string, w: Worktree)
    requires TreesFit(trees, branches, mainBranch) && w.branch !in branches && w.branch != mainBranch
    ensures TreesFit(trees[path := w], branches + {w.branch}, mainBranch)
  {
  }

  lemma CreateKeeps(g: Git, taskId: string, path: string, branch: string, base: string)
    requires WellFormed(g) && CreateOrReconcile(g, taskId, path, branch, base).Ok?
    ensures WellFormed(CreateOrReconcile(g, taskId, path, branch, base).value)
    ensures CreateOrReconcile(g, taskId, path, branch, base).value.commits == g.commits
    ensures CreateOrReconcile(g, taskId, path, branch, base).value.mainBranch == g.mainBranch != branch
    ensures path in CreateOrReconcile(g, taskId, path, branch, base).value.trees
    ensures CreateOrReconcile(g, taskId, path, branch, base).value.trees[path].branch == branch
    ensures HeadAt(CreateOrReconcile(g, taskId, path, branch, base).value, path) == Some(base)
  {
    if branch !in g.branches {
      NewTreeFits(g.trees, g.branches.Keys, g.mainBranch, path, Worktree(branch, [], map[]));
      assert g.branches[branch := base].Keys == g.branches.Keys + {branch};
      BranchesStillPoint(g.branches, g.commits, g.commits, branch, base);
    }
  }

  lemma MergeIntoKeeps(g: Git, commit: string, task: string)
    requires WellFormed(g) && FreshCommit(g, commit) && task in g.commits
    ensures WellFormed(MergeInto(g, commit, task))
    ensures Extends(g.commits, MergeInto(g, commit, task).commits)
  {
    var big := AddCommit(g.commits, commit, [MainHead(g), task]);
    AddedCommitIsWellFormed(g.commits, commit, [MainHead(g), task]);
    BranchesStillPoint(g.branches, g.commits, big, g.mainBranch, commit);
    assert g.branches[g.mainBranch := commit].Keys == g.branches.Keys;
  }

  /** The three things a merge attempt can do to the repository. */
  lemma MergeShape(g: Git, pre: string, task: string, choice: MergeChoice)
    requires HasMain(g)
    ensures var (h, r) := ReconcileOrMerge(g, pre, task, choice);
      || h == g
      || (choice.NotRestored? && h == g.(mainStatus := choice.status) && r.GitFails?)
      || (choice.Merged? && task in g.commits && h == MergeInto(g, choice.commit, task) && r == Ok(choice.commit))
    ensures ReconcileOrMerge(g, pre, task, choice).1.Conflicts? ==> ReconcileOrMerge(g, pre, task, choice).0 == g
  {
  }

  lemma MergeKeeps(g: Git, pre: string, task: string, choice: MergeChoice)
    requires WellFormed(g) && (choice.Merged? ==> FreshCommit(g, choice.commit))
    ensures var h := ReconcileOrMerge(g, pre, task, choice).0;
      && WellFormed(h) && Extends(g.commits, h.commits)
      && h.trees == g.trees && h.mainBranch == g.mainBranch
      && forall b :: b in g.branches && b != g.mainBranch ==> b in h.branches && h.branches[b] == g.branches[b]
  {
    MergeShape(g, pre, task, choice);
    if choice.Merged? && task in g.commits {
      MergeIntoKeeps(g, choice.commit, task);
    }
  }

  lemma RemoveKeeps(g: Git, path: string, branch: string)
    requires WellFormed(g) && RemoveWorktree(g, path, branch).Ok?
    ensures WellFormed(RemoveWorktree(g, path, branch).value)
    ensures RemoveWorktree(g, path, branch).value == g.(trees := g.trees - {path})
  {
    assert path !in g.trees ==> g.trees - {path} == g.trees;
  }

  lemma DeleteKeeps(g: Git, branch: string)
    requires WellFormed(g) && DeleteBranch(g, branch).Ok?
    ensures WellFormed(DeleteBranch(g, branch).value)
    ensures DeleteBranch(g, branch).value == g.(branches := g.branches - {branch})
    ensures branch != g.mainBranch
  {
    assert branch !in g.branches ==> g.branches - {branch} == g.branches;
  }

  lemma WriteKeeps(g: Git, path: string, adr: Adr, target: AdrPath, expected: FileText, at: nat)
    requires WellFormed(g) && WriteAdr(g, path, adr, target, expected, at).Ok?
    ensures WellFormed(WriteAdr(g, path, adr, target, expected, at).value)
    ensures path in WriteAdr(g, path, adr, target, expected, at).value.trees && path in g.trees
    ensures WriteAdr(g, path, adr, target, expected, at).value.trees[path].branch == g.trees[path].branch
    ensures WriteAdr(g, path, adr, target, expected, at).value
         == g.(trees := g.trees[path := WriteAdr(g, path, adr, target, expected, at).value.trees[path]])
  {
    var h := WriteAdr(g, path, adr, target, expected, at).value;
    SameBranchStillFits(g.trees, g.branches.Keys, g.mainBranch, path, h.trees[path]);
    assert g.trees[path := g.trees[path]] == g.trees;
  }
}
