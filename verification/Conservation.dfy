/** No step loses work: what the refs reach stays reached, and only clean worktrees go. */
module Conservation {
  import opened Text
  import opened Contracts
  import opened Document
  import opened Repository
  import opened Decisions
  import opened Transitions
  import opened RepositoryFacts

  /** A commit some branch still reaches. */
  predicate Held(g: Git, c: string) {
    exists b :: b in g.branches && Reaches(g.commits, g.branches[b], c)
  }

  ghost predicate RefsKept(g: Git, h: Git) {
    forall c :: Held(g, c) ==> Held(h, c)
  }

  /** Worktrees with uncommitted changes stay registered. */
  predicate DirtyTreesKept(g: Git, h: Git) {
    forall t :: t in g.trees && g.trees[t].status != [] ==> t in h.trees
  }

  /** What no step takes away, whatever an agent does to its branch: commits stay in the graph and
      worktrees with uncommitted changes stay registered. */
  predicate Preserves(g: Git, h: Git) {
    && WellFormed(h)
    && Extends(g.commits, h.commits)
    && DirtyTreesKept(g, h)
    && h.mainBranch == g.mainBranch && h.root == g.root && h.commonDir == g.commonDir
  }

  ghost predicate Conserves(g: Git, h: Git) {
    Preserves(g, h) && RefsKept(g, h)
  }

  lemma BranchesKeepRefs(g: Git, h: Git)
    requires WellFormed(g) && Extends(g.commits, h.commits)
    requires forall b :: b in g.branches ==> b in h.branches && Reaches(h.commits, h.branches[b], g.branches[b])
    ensures RefsKept(g, h)
  {
    forall c | Held(g, c)
      ensures Held(h, c)
    {
      var b :| b in g.branches && Reaches(g.commits, g.branches[b], c);
      ReachesStays(g.commits, h.commits, g.branches[b], c);
      ReachesTransitive(h.commits, h.branches[b], g.branches[b], c);
    }
  }

  /** The commit a task branch pointed to is still reached from some branch. */
  predicate TipKept(t: Task, g: Git, h: Git) {
    t.path.Some? && HeadAt(g, t.path.value).Some? ==> Held(h, HeadAt(g, t.path.value).value)
  }

  lemma EditPreserves(g: Git, path: string, e: Edit)
    requires WellFormed(g) && EditFits(g, e)
    ensures Preserves(g, ApplyEdit(g, path, e))
  {
    EditKeeps(g, path, e);
  }

  /** An edit loses nothing if and only if the old tip of the branch is still reached. */
  lemma EditConservesExactly(t: Task, g: Git, e: Edit)
    requires WellFormed(g) && EditFits(g, e)
    ensures Preserves(g, WorktreeEdit(t, g, e))
    ensures RefsKept(g, WorktreeEdit(t, g, e)) <==> TipKept(t, g, WorktreeEdit(t, g, e))
  {
    if t.path.Some? {
      EditPreserves(g, t.path.value, e);
      if HeadAt(g, t.path.value).Some? {
        EditLosesOnlyTip(g, t.path.value, e);
      }
    }
  }

  lemma EditLosesOnlyTip(g: Git, path: string, e: Edit)
    requires WellFormed(g) && EditFits(g, e) && HeadAt(g, path).Some?
    ensures RefsKept(g, ApplyEdit(g, path, e)) <==> Held(ApplyEdit(g, path, e), HeadAt(g, path).value)
  {
    var h, tip := ApplyEdit(g, path, e), HeadAt(g, path).value;
    EditKeeps(g, path, e);
    assert Held(g, tip) by {
      assert Reaches(g.commits, g.branches[g.trees[path].branch], tip);
    }
    if Held(h, tip) {
      forall c | Held(g, c)
        ensures Held(h, c)
      {
        var b :| b in g.branches && Reaches(g.commits, g.branches[b], c);
        ReachesStays(g.commits, h.commits, g.branches[b], c);
        if b == g.trees[path].branch {
          var k :| k in h.branches && Reaches(h.commits, h.branches[k], tip);
          ReachesTransitive(h.commits, h.branches[k], tip, c);
        } else {
          assert b in h.branches && h.branches[b] == g.branches[b];
        }
      }
    }
  }

  lemma CreateConserves(g: Git, taskId: string, path: string, branch: string, base: string)
    requires WellFormed(g) && CreateOrReconcile(g, taskId, path, branch, base).Ok?
    ensures Conserves(g, CreateOrReconcile(g, taskId, path, branch, base).value)
  {
    CreateKeeps(g, taskId, path, branch, base);
    BranchesKeepRefs(g, CreateOrReconcile(g, taskId, path, branch, base).value);
  }

  lemma MergeIntoConserves(g: Git, commit: string, task: string)
    requires WellFormed(g) && FreshCommit(g, commit) && task in g.commits
    ensures Conserves(g, MergeInto(g, commit, task))
  {
    var h := MergeInto(g, commit, task);
    MergeIntoKeeps(g, commit, task);
    assert h.commits[commit].parents[0] == MainHead(g);
    assert MainHead(g) in h.commits[commit].parents;
    assert Reaches(h.commits, commit, MainHead(g));
    BranchesKeepRefs(g, h);
  }

  lemma MergeConserves(g: Git, pre: string, task: string, choice: MergeChoice)
    requires WellFormed(g) && (choice.Merged? ==> FreshCommit(g, choice.commit))
    ensures Conserves(g, ReconcileOrMerge(g, pre, task, choice).0)
  {
    MergeShape(g, pre, task, choice);
    MergeKeeps(g, pre, task, choice);
    if choice.Merged? && task in g.commits {
      MergeIntoConserves(g, choice.commit, task);
    }
    if ReconcileOrMerge(g, pre, task, choice).0 != MergeInto(g, if choice.Merged? then choice.commit else "", task) {
      BranchesKeepRefs(g, ReconcileOrMerge(g, pre, task, choice).0);
    }
  }

  lemma RemoveConserves(g: Git, path: string, branch: string)
    requires WellFormed(g) && RemoveWorktree(g, path, branch).Ok?
    ensures Conserves(g, RemoveWorktree(g, path, branch).value)
  {
    RemoveKeeps(g, path, branch);
    BranchesKeepRefs(g, RemoveWorktree(g, path, branch).value);
  }

  /** A deleted branch was an ancestor of the integration HEAD, which keeps its commits. */
  lemma DeleteConserves(g: Git, branch: string)
    requires WellFormed(g) && DeleteBranch(g, branch).Ok?
    ensures Conserves(g, DeleteBranch(g, branch).value)
  {
    var h := DeleteBranch(g, branch).value;
    DeleteKeeps(g, branch);
    forall c | Held(g, c)
      ensures Held(h, c)
    {
      var b :| b in g.branches && Reaches(g.commits, g.branches[b], c);
      if b == branch {
        ReachesTransitive(g.commits, MainHead(g), g.branches[branch], c);
        assert h.mainBranch in h.branches && h.branches[h.mainBranch] == MainHead(g);
      } else {
        assert b in h.branches && h.branches[b] == g.branches[b];
      }
    }
  }

  lemma WriteConserves(g: Git, path: string, adr: Adr, target: AdrPath, expected: FileText, at: nat)
    requires WellFormed(g) && WriteAdr(g, path, adr, target, expected, at).Ok?
    ensures Conserves(g, WriteAdr(g, path, adr, target, expected, at).value)
  {
    WriteKeeps(g, path, adr, target, expected, at);
    BranchesKeepRefs(g, WriteAdr(g, path, adr, target, expected, at).value);
  }

  lemma NothingConserves(g: Git)
    requires WellFormed(g)
    ensures Conserves(g, g)
  {
  }

  /** In these phases the supervisor itself changes the repository, if anybody does. */
  predicate RunsNoAgent(p: Phase) {
    !(p.Planning? || p.Architecting? || p.Building? || p.Verifying? || p.Auditing?)
  }

  /** What the supervisor does by itself loses nothing at all. */
  lemma SupervisorConserves(d: Doc, g: Git, i: StepInput)
    requires WellFormed(g) && InputFits(d.body, g, i) && !IsTerminal(d.phase) && RunsNoAgent(d.phase)
    ensures Conserves(g, Dispatch(d, g, i).git)
  {
    var b := d.body;
    NothingConserves(g);
    match d.phase
    case CreatingWorktree => CreatingConserves(b, g, i);
    case RecordingDecision => RecordingConserves(b, g, i);
    case Merging => MergingConserves(b, g, i);
    case CleanupWorktree => CleanupWorktreeConserves(b, g, i);
    case CleanupBranch => CleanupBranchConserves(b, g, i);
    case _ =>
  }

  /** A dispatch with an agent or a command at work changes the repository by an edit, if at all. */
  lemma AgentOnlyEdits(d: Doc, g: Git, i: StepInput)
    requires HasMain(g) && |i.runs| == |d.body.options.verifyCommands| && !IsTerminal(d.phase) && !RunsNoAgent(d.phase)
    ensures Dispatch(d, g, i).git == g || Dispatch(d, g, i).git == WorktreeEdit(d.body.task, g, i.edit)
  {
  }

  /** One dispatch, for any input: commits and dirty worktrees stay, and no commit goes out of reach
      unless an agent has left the old tip of its own branch behind. */
  lemma DispatchConserves(d: Doc, g: Git, i: StepInput)
    requires WellFormed(g) && InputFits(d.body, g, i) && !IsTerminal(d.phase)
    ensures Preserves(g, Dispatch(d, g, i).git)
    ensures RefsKept(g, Dispatch(d, g, i).git) <==> TipKept(d.body.task, g, Dispatch(d, g, i).git)
  {
    if RunsNoAgent(d.phase) {
      SupervisorConserves(d, g, i);
      KeptRefsKeepTip(d.body.task, g, Dispatch(d, g, i).git);
    } else {
      AgentOnlyEdits(d, g, i);
      EditConservesExactly(d.body.task, g, i.edit);
      NothingConserves(g);
      KeptRefsKeepTip(d.body.task, g, g);
    }
  }

  lemma KeptRefsKeepTip(t: Task, g: Git, h: Git)
    requires WellFormed(g) && RefsKept(g, h)
    ensures TipKept(t, g, h)
  {
    if t.path.Some? && HeadAt(g, t.path.value).Some? {
      var tip := HeadAt(g, t.path.value).value;
      assert Reaches(g.commits, g.branches[g.trees[t.path.value].branch], tip);
      assert Held(g, tip);
    }
  }

  lemma CreatingConserves(b: Body, g: Git, i: StepInput)
    requires WellFormed(g)
    ensures Conserves(g, DoCreatingWorktree(b, g, i).git)
  {
    NothingConserves(g);
    if b.intents.treePath.Some? && b.intents.treeBranch.Some? && b.intents.treeBase.Some? && b.results.planner.Some? {
      var taskId := OrEmpty(b.results.planner.value.taskId);
      if CreateOrReconcile(g, taskId, b.intents.treePath.value, b.intents.treeBranch.value, b.intents.treeBase.value).Ok? {
        CreateConserves(g, taskId, b.intents.treePath.value, b.intents.treeBranch.value, b.intents.treeBase.value);
      }
    }
  }

  lemma RecordingConserves(b: Body, g: Git, i: StepInput)
    requires WellFormed(g)
    ensures Conserves(g, DoRecordingDecision(b, g, i).git)
  {
    NothingConserves(g);
    if b.results.architect.Some? && b.results.architect.value.adr.Some? && b.intents.adrPath.Some? && b.intents.adrHash.Some? {
      var adr := b.results.architect.value.adr.value;
      if WriteAdr(g, OrEmpty(b.task.path), adr, b.intents.adrPath.value, b.intents.adrHash.value, i.adrLine).Ok? {
        WriteConserves(g, OrEmpty(b.task.path), adr, b.intents.adrPath.value, b.intents.adrHash.value, i.adrLine);
      }
    }
  }

  lemma MergingOnlyMerges(b: Body, g: Git, i: StepInput)
    requires HasMain(g)
    ensures var h := DoMerging(b, g, i).git;
      h == g || (b.intents.mergePre.Some? && b.intents.mergeTask.Some?
                 && h == ReconcileOrMerge(g, b.intents.mergePre.value, b.intents.mergeTask.value, i.merge).0)
  {
  }

  lemma MergingConserves(b: Body, g: Git, i: StepInput)
    requires WellFormed(g) && InputFits(b, g, i)
    ensures Conserves(g, DoMerging(b, g, i).git)
  {
    NothingConserves(g);
    MergingOnlyMerges(b, g, i);
    if b.intents.mergePre.Some? && b.intents.mergeTask.Some? {
      MergeConserves(g, b.intents.mergePre.value, b.intents.mergeTask.value, i.merge);
    }
  }

  lemma CleanupWorktreeConserves(b: Body, g: Git, i: StepInput)
    requires WellFormed(g)
    ensures Conserves(g, DoCleanupWorktree(b, g, i).git)
  {
    NothingConserves(g);
    if HasWorktree(b.task) && RemoveWorktree(g, b.task.path.value, b.task.branch.value).Ok? {
      RemoveConserves(g, b.task.path.value, b.task.branch.value);
    }
  }

  lemma CleanupBranchConserves(b: Body, g: Git, i: StepInput)
    requires WellFormed(g)
    ensures Conserves(g, DoCleanupBranch(b, g, i).git)
  {
    NothingConserves(g);
    if HasWorktree(b.task) && DeleteBranch(g, b.task.branch.value).Ok? {
      DeleteConserves(g, b.task.branch.value);
    }
  }

  /** A branch goes only when its tip is the reviewed head and an ancestor of the integration HEAD. */
  lemma DeletedBranchWasReviewed(b: Body, g: Git, i: StepInput, branch: string)
    requires WellFormed(g) && branch in g.branches && branch !in DoCleanupBranch(b, g, i).git.branches
    ensures b.task.branch == Some(branch) && Some(g.branches[branch]) == b.intents.mergeTask
    ensures b.intents.mergeCommit.Some? && IsMergeOf(g.commits, b.intents.mergeCommit.value, g.branches[branch])
    ensures Reaches(g.commits, MainHead(g), g.branches[branch])
  {
    if HasWorktree(b.task) && DeleteBranch(g, b.task.branch.value).Ok? {
      DeleteKeeps(g, b.task.branch.value);
    }
  }
}
