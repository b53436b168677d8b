/** Crash refinement: a crash after a phase's durable effect but before its save leaves a state
    that resume accepts, and running the phase again does what the uninterrupted step does. */
module Recovery {
  import opened Text
  import opened Contracts
  import opened Document
  import opened Repository
  import opened Decisions
  import opened Transitions
  import opened Invariant
  import opened RepositoryFacts
  import opened PhaseSteps
  import opened Resume

  /** The phases that change the repository through the supervisor's own commands. */
  predicate IsDurable(p: Phase) {
    p.CreatingWorktree? || p.RecordingDecision? || p.Merging? || p.CleanupWorktree? || p.CleanupBranch?
  }

  predicate NothingFails(i: StepInput) {
    i.gitBefore.None? && i.gitAfter.None? && i.provisionFault.None? && i.adrFault.None?
  }

  /** A fresh process may pick the run up in repository `h`, and step `x` comes out again. */
  predicate Recovers(d: Doc, h: Git, x: Dispatched, j: StepInput)
    requires HasMain(h) && |j.runs| == |d.body.options.verifyCommands| && !IsTerminal(d.phase)
  {
    AtRest(d, h) && ResumeAccepts(d, h) && Dispatch(d, h, j) == x
  }

  lemma CreatingRecovers(d: Doc, g: Git, i: StepInput, j: StepInput)
    requires AtRest(d, g) && ResumeAccepts(d, g) && InputFits(d.body, g, i) && NothingFails(j)
    requires |j.runs| == |d.body.options.verifyCommands|
    requires d.phase.CreatingWorktree? && DoCreatingWorktree(d.body, g, i).raise.NoRaise?
    ensures Recovers(d, DoCreatingWorktree(d.body, g, i).git, DoCreatingWorktree(d.body, g, i), j)
  {
    var n := d.body.intents;
    CreateKeeps(g, OrEmpty(d.body.results.planner.value.taskId), n.treePath.value, n.treeBranch.value, n.treeBase.value);
  }

  /** The written file is the one status line resume allows for. */
  lemma WriteLeavesResumable(d: Doc, g: Git, adr: Adr, at: nat)
    requires WellFormed(g) && ResumeAccepts(d, g) && EffectivePhase(d).RecordingDecision? && !NoTask(d.body.task)
    requires d.checkpoints.taskStatus.Some?
    requires WriteAdr(g, OrEmpty(d.body.task.path), adr, d.body.intents.adrPath.value, d.body.intents.adrHash.value, at).Ok?
    ensures ResumeAccepts(d, WriteAdr(g, OrEmpty(d.body.task.path), adr, d.body.intents.adrPath.value,
                                      d.body.intents.adrHash.value, at).value)
  {
    var path, target, text := OrEmpty(d.body.task.path), d.body.intents.adrPath.value, d.body.intents.adrHash.value;
    var h := WriteAdr(g, path, adr, target, text, at).value;
    if target.name !in g.trees[path].adrs {
      DriftIsOneLine(g.trees[path].status, h.trees[path].status, target.name);
    }
  }

  lemma RecordingRecovers(d: Doc, g: Git, i: StepInput, j: StepInput)
    requires AtRest(d, g) && ResumeAccepts(d, g) && InputFits(d.body, g, i) && NothingFails(j)
    requires |j.runs| == |d.body.options.verifyCommands|
    requires d.phase.RecordingDecision? && DoRecordingDecision(d.body, g, i).raise.NoRaise?
    ensures Recovers(d, DoRecordingDecision(d.body, g, i).git, DoRecordingDecision(d.body, g, i), j)
  {
    var n := d.body.intents;
    var path, adr := OrEmpty(d.body.task.path), d.body.results.architect.value.adr.value;
    WriteKeeps(g, path, adr, n.adrPath.value, n.adrHash.value, i.adrLine);
    WriteLeavesResumable(d, g, adr, i.adrLine);
  }

  /** After a merge, the integration HEAD reaches what it reached, and not the other way round. */
  lemma NewMergeIsAhead(g: Git, pre: string, task: string, c: string)
    requires WellFormed(g) && FreshCommit(g, c) && pre in g.commits && task in g.commits
    requires MainHead(g) == pre || Reaches(g.commits, MainHead(g), pre)
    ensures Reaches(MergeInto(g, c, task).commits, c, pre) && !Reaches(MergeInto(g, c, task).commits, pre, c)
  {
    var cs, head := MergeInto(g, c, task).commits, MainHead(g);
    MergeIntoKeeps(g, c, task);
    assert cs[c].parents[0] == head;
    assert head in cs[c].parents && Reaches(cs, head, head) && Reaches(cs, c, head);
    ReachesStays(g.commits, cs, head, pre);
    ReachesTransitive(cs, c, head, pre);
    if Reaches(cs, pre, c) {
      AncestorIsOlder(cs, pre, c);
      AncestorIsOlder(cs, c, pre);
    }
  }

  /** The new merge heads the list that is searched for it. */
  lemma NewMergeIsListed(g: Git, pre: string, task: string, c: string)
    requires WellFormed(g) && FreshCommit(g, c) && pre in g.commits && task in g.commits
    requires !Reaches(MergeInto(g, c, task).commits, pre, c)
    ensures var cs := MergeInto(g, c, task).commits;
      FirstMergeOf(cs, RevList(cs, pre, c), task) == Some(c)
  {
    var cs := MergeInto(g, c, task).commits;
    assert FirstParents(cs, c)[0] == c;
    assert RevList(cs, pre, c)[0] == c;
  }

  /** A merge that took place is found again, whatever `git merge` would now do. */
  lemma MergeIsFoundAgain(g: Git, pre: string, task: string, choice: MergeChoice, again: MergeChoice)
    requires WellFormed(g) && (choice.Merged? ==> FreshCommit(g, choice.commit))
    requires ReconcileOrMerge(g, pre, task, choice).1.Ok?
    ensures ReconcileOrMerge(ReconcileOrMerge(g, pre, task, choice).0, pre, task, again)
         == ReconcileOrMerge(g, pre, task, choice)
  {
    if FirstMergeOf(g.commits, RevList(g.commits, pre, MainHead(g)), task).None? {
      var c := choice.commit;
      NewMergeIsAhead(g, pre, task, c);
      NewMergeIsListed(g, pre, task, c);
    }
  }

  lemma MergingRecovers(d: Doc, g: Git, i: StepInput, j: StepInput)
    requires AtRest(d, g) && ResumeAccepts(d, g) && InputFits(d.body, g, i) && NothingFails(j)
    requires |j.runs| == |d.body.options.verifyCommands|
    requires d.phase.Merging? && DoMerging(d.body, g, i).raise.NoRaise?
    ensures Recovers(d, DoMerging(d.body, g, i).git, DoMerging(d.body, g, i), j)
  {
    var pre, task := d.body.intents.mergePre.value, d.body.intents.mergeTask.value;
    MergeIsFoundAgain(g, pre, task, i.merge, j.merge);
    MergeAgrees(d.body, g, i, Merging);
    MergeLeavesResumable(d, g, i);
  }

  lemma MergeLeavesResumable(d: Doc, g: Git, i: StepInput)
    requires AtRest(d, g) && ResumeAccepts(d, g) && InputFits(d.body, g, i) && d.phase.Merging?
    requires ReconcileOrMerge(g, d.body.intents.mergePre.value, d.body.intents.mergeTask.value, i.merge).1.Ok?
    ensures ResumeAccepts(d, ReconcileOrMerge(g, d.body.intents.mergePre.value, d.body.intents.mergeTask.value, i.merge).0)
  {
    var pre, task := d.body.intents.mergePre.value, d.body.intents.mergeTask.value;
    MergeShape(g, pre, task, i.merge);
    if ReconcileOrMerge(g, pre, task, i.merge).0 != g {
      NewHeadLeavesResumable(d, g, task, i.merge.commit);
    }
  }

  lemma NewHeadLeavesResumable(d: Doc, g: Git, task: string, c: string)
    requires AtRest(d, g) && ResumeAccepts(d, g) && d.phase.Merging? && FreshCommit(g, c) && task in g.commits
    ensures ResumeAccepts(d, MergeInto(g, c, task))
  {
    var h, head := MergeInto(g, c, task), MainHead(g);
    MergeIntoKeeps(g, c, task);
    if d.checkpoints.mainHead == head {
      assert h.commits[c].parents[0] == head;
      assert head in h.commits[c].parents && Reaches(h.commits, head, head);
    } else {
      AncestorIsOlder(g.commits, head, d.checkpoints.mainHead);
      NewMergeIsAhead(g, d.checkpoints.mainHead, task, c);
    }
    ReachesStays(g.commits, h.commits, HeadAt(g, d.body.task.path.value).value, d.body.task.base.value);
  }

  lemma CleanupWorktreeRecovers(d: Doc, g: Git, i: StepInput, j: StepInput)
    requires AtRest(d, g) && ResumeAccepts(d, g) && InputFits(d.body, g, i) && NothingFails(j)
    requires |j.runs| == |d.body.options.verifyCommands|
    requires d.phase.CleanupWorktree? && DoCleanupWorktree(d.body, g, i).raise.NoRaise?
    ensures Recovers(d, DoCleanupWorktree(d.body, g, i).git, DoCleanupWorktree(d.body, g, i), j)
  {
    RemoveKeeps(g, d.body.task.path.value, d.body.task.branch.value);
  }

  lemma CleanupBranchRecovers(d: Doc, g: Git, i: StepInput, j: StepInput)
    requires AtRest(d, g) && ResumeAccepts(d, g) && InputFits(d.body, g, i) && NothingFails(j)
    requires |j.runs| == |d.body.options.verifyCommands|
    requires d.phase.CleanupBranch? && DoCleanupBranch(d.body, g, i).raise.NoRaise?
    ensures Recovers(d, DoCleanupBranch(d.body, g, i).git, DoCleanupBranch(d.body, g, i), j)
  {
    DeleteKeeps(g, d.body.task.branch.value);
  }

  lemma DurableRecovers(d: Doc, g: Git, i: StepInput, j: StepInput)
    requires AtRest(d, g) && ResumeAccepts(d, g) && InputFits(d.body, g, i) && NothingFails(j)
    requires |j.runs| == |d.body.options.verifyCommands|
    requires IsDurable(d.phase) && Dispatch(d, g, i).raise.NoRaise?
    ensures Recovers(d, Dispatch(d, g, i).git, Dispatch(d, g, i), j)
  {
    match d.phase
    case CreatingWorktree => CreatingRecovers(d, g, i, j);
    case RecordingDecision => RecordingRecovers(d, g, i, j);
    case Merging => MergingRecovers(d, g, i, j);
    case CleanupWorktree => CleanupWorktreeRecovers(d, g, i, j);
    case CleanupBranch => CleanupBranchRecovers(d, g, i, j);
  }

  lemma SameConclusion(d: Doc, x: Dispatched, i: StepInput, j: StepInput)
    requires HasMain(x.git) && !d.phase.AwaitingInput? && j.save == i.save && j.failureSave == i.failureSave
    ensures Concluded(d, x, i) == Concluded(d, x, j)
  {
  }

  /** Crash refinement. Lost between effect and save, the step is repeated by a resumed process
      with the same document and repository as if nothing had happened, whatever Git, the file
      system listing or the agents would answer the second time. */
  lemma CrashRefines(d: Doc, g: Git, i: StepInput, j: StepInput)
    requires AtRest(d, g) && ResumeAccepts(d, g) && InputFits(d.body, g, i) && NothingFails(j)
    requires |j.runs| == |d.body.options.verifyCommands|
    requires IsDurable(d.phase) && Dispatch(d, g, i).raise.NoRaise?
    ensures AtRest(d, Dispatch(d, g, i).git) && ResumeAccepts(d, Dispatch(d, g, i).git)
    ensures j.save == i.save && j.failureSave == i.failureSave ==>
              Advance(d, Dispatch(d, g, i).git, j) == Advance(d, g, i)
  {
    DurableRecovers(d, g, i, j);
    if j.save == i.save && j.failureSave == i.failureSave {
      SameConclusion(d, Dispatch(d, g, i), i, j);
    }
  }
}
