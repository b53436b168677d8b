/** A run gets somewhere: a READY plan, a COMPLETE build and an ACCEPT, with nothing failing on the
    way, accept one more task and put exactly its head on the integration branch. */
module Progress {
  import opened Text
  import opened Contracts
  import opened Document
  import opened Repository
  import opened Transitions
  import opened Invariant
  import opened RepositoryFacts
  import opened Merges
  import opened Outcomes

  /** Iterations of `run()`, one after the other. */
  function Iterates(d: Doc, g: Git, inputs: seq<StepInput>): Iteration
    decreases inputs
  {
    if inputs == [] then GoesOn(d, g)
    else if !HasMain(g) || |inputs[0].runs| != |d.body.options.verifyCommands| then Stops(d, g, Crashed)
    else
      match Iterate(d, g, inputs[0])
      case Stops(_, _, _) => Iterate(d, g, inputs[0])
      case GoesOn(e, h) => Iterates(e, h, inputs[1..])
  }

  /** A saved step to a live phase has the run go on with what the dispatch left. */
  lemma SavedStepGoesOn(d: Doc, g: Git, i: StepInput)
    requires HasMain(g) && |i.runs| == |d.body.options.verifyCommands| && !IsTerminal(d.phase)
    requires !d.phase.AwaitingInput? && !d.phase.OperationalFailure? && i.save.SaveWorks?
    requires var x := Dispatch(d, g, i); x.raise.NoRaise? && !IsTerminal(x.phase) && !Unreadable(d, x)
    ensures var r, x := Iterate(d, g, i), Dispatch(d, g, i);
      r.GoesOn? && r.git == x.git && r.doc.body == x.body && r.doc.phase == x.phase
  {
  }

  // -------------------------------------------------------------- the inputs

  /** Nothing fails and nothing is left behind. */
  predicate Calm(i: StepInput) {
    && i.gitBefore.None? && i.gitAfter.None? && i.provisionFault.None? && i.adrFault.None?
    && i.save.SaveWorks? && i.edit == Edit([], None, [])
  }

  /** The planner proposes a task that needs no decision, and the auditor accepts it. */
  predicate Smooth(i: StepInput, r: PlannerResult) {
    && Calm(i) && i.planner == Replied(r) && ValidPlanner(r) && r.status.Ready? && !r.decisionRequired
    && Sanitize(OrEmpty(r.taskId)) != ""
    && i.auditor.Replied? && i.auditor.value.disposition.Accept? && i.auditor.value.taskId == OrEmpty(r.taskId)
    && Strip(i.auditor.value.objective) != ""
    && i.merge.Merged?
  }

  /** The builder leaves a clean worktree with its reported commit at the HEAD. */
  predicate Builds(j: StepInput, r: PlannerResult, head: string) {
    && j.gitBefore.None? && j.save.SaveWorks? && j.edit.tip == Some(head) && j.edit.status == []
    && j.builder.Replied? && j.builder.value.status.Complete? && j.builder.value.commit == Some(head)
    && j.builder.value.taskId == OrEmpty(r.taskId) && Strip(j.builder.value.objective) != ""
  }

  /** Place and branch for the task are free, and its head is a new commit on the builder's own. */
  predicate RoomFor(g: Git, r: PlannerResult, j: StepInput, head: string, merge: string) {
    && WellFormed(g) && g.mainStatus == []
    && PathOf(g, r) !in g.trees && PathOf(g, r) !in g.strays && BranchOf(r) !in g.branches
    && EditFits(g, j.edit)
    && var cs := Grow(g.commits, j.edit.commits);
    && Names(cs, head, head) && !Reaches(cs, MainHead(g), head)
    && merge !in cs && IsCanonicalCommit(merge)
  }

  function PathOf(g: Git, r: PlannerResult): string {
    g.root + "-" + Sanitize(OrEmpty(r.taskId))
  }

  function BranchOf(r: PlannerResult): string {
    "loop/" + Sanitize(OrEmpty(r.taskId))
  }

  // --------------------------------------------------------------- the stages

  /** The repository with the task's worktree at some head. */
  function Standing(g: Git, r: PlannerResult, commits: map<string, Commit>, head: string): Git {
    g.(commits := commits, branches := g.branches[BranchOf(r) := head],
       trees := g.trees[PathOf(g, r) := Worktree(BranchOf(r), [], map[])])
  }

  /** The task in hand, on its way. */
  predicate InHand(d: Doc, d0: Doc, g: Git, r: PlannerResult)
    requires HasMain(g)
  {
    && d.body.options == d0.body.options && d.body.header == d0.body.header
    && d.body.results.planner == Some(r) && d.body.counters.accepted == d0.body.counters.accepted
    && d.body.task == Task(r.taskId, Some(PathOf(g, r)), Some(BranchOf(r)), Some(MainHead(g)))
    && d.body.question.None?
  }

  predicate AtStart(d: Doc, g: Git) {
    && AtRest(d, g) && d.phase.Planning? && NoTask(d.body.task) && d.body.counters.accepted < d.body.options.maxAcceptedTasks
  }

  lemma PlansWorktree(d: Doc, g: Git, i: StepInput, r: PlannerResult)
    requires AtStart(d, g) && Smooth(i, r) && |i.runs| == |d.body.options.verifyCommands|
    ensures var s := Iterate(d, g, i);
      && s.GoesOn? && s.git == g && s.doc.phase.CreatingWorktree?
      && s.doc.body.intents.treePath == Some(PathOf(g, r)) && s.doc.body.intents.treeBranch == Some(BranchOf(r))
      && s.doc.body.intents.treeBase == Some(MainHead(g))
      && s.doc.body.results.planner == Some(r) && s.doc.body.options == d.body.options && s.doc.body.header == d.body.header
      && s.doc.body.counters == d.body.counters && s.doc.body.question.None? && NoTask(s.doc.body.task)
  {
    PlanningOutcomes(d, g, i);
    ReadyPlanIntendsWorktree(d, g, i);
    PlanningKeepsRest(d.body, g, i);
    SavedStepGoesOn(d, g, i);
  }

  lemma PlanningKeepsRest(b: Body, g: Git, i: StepInput)
    requires HasMain(g) && DoPlanning(b, g, i).phase.CreatingWorktree?
    ensures var c := DoPlanning(b, g, i).body;
      c.options == b.options && c.header == b.header && c.counters == b.counters && c.question == b.question && c.task == b.task
  {
  }

  /** Where there is room the worktree is made. */
  lemma RoomIsUsed(g: Git, r: PlannerResult)
    requires WellFormed(g) && Sanitize(OrEmpty(r.taskId)) != ""
    requires PathOf(g, r) !in g.trees && PathOf(g, r) !in g.strays && BranchOf(r) !in g.branches
    ensures Intended(g, OrEmpty(r.taskId), PathOf(g, r), BranchOf(r)) && CanStand(g, PathOf(g, r), BranchOf(r), MainHead(g))
    ensures CreateOrReconcile(g, OrEmpty(r.taskId), PathOf(g, r), BranchOf(r), MainHead(g))
         == Ok(Standing(g, r, g.commits, MainHead(g)))
  {
    assert g.(commits := g.commits) == g;
  }

  lemma MakesWorktree(d: Doc, d0: Doc, g: Git, i: StepInput, r: PlannerResult, j: StepInput, head: string, merge: string)
    requires AtStart(d0, g) && Smooth(i, r) && |i.runs| == |d.body.options.verifyCommands| && RoomFor(g, r, j, head, merge)
    requires d.phase.CreatingWorktree? && d.body.intents.treePath == Some(PathOf(g, r))
    requires d.body.intents.treeBranch == Some(BranchOf(r)) && d.body.intents.treeBase == Some(MainHead(g))
    requires d.body.results.planner == Some(r) && d.body.options == d0.body.options && d.body.header == d0.body.header
    requires d.body.counters == d0.body.counters && d.body.question.None?
    ensures var s := Iterate(d, g, i);
      && s.GoesOn? && s.doc.phase.Building? && InHand(s.doc, d0, g, r)
      && s.git == Standing(g, r, g.commits, MainHead(g))
  {
    RoomIsUsed(g, r);
    CreatingOutcomes(d, g, i);
    CreatingKeepsRest(d.body, g, i);
    SavedStepGoesOn(d, g, i);
  }

  lemma CreatingKeepsRest(b: Body, g: Git, i: StepInput)
    requires HasMain(g)
    ensures var c := DoCreatingWorktree(b, g, i).body;
      c.options == b.options && c.header == b.header && c.counters.accepted == b.counters.accepted && c.question == b.question
  {
  }

  /** The repository once the builder is done. */
  lemma BuilderMovesHead(g: Git, r: PlannerResult, j: StepInput, head: string, merge: string)
    requires RoomFor(g, r, j, head, merge) && Builds(j, r, head)
    ensures ApplyEdit(Standing(g, r, g.commits, MainHead(g)), PathOf(g, r), j.edit)
         == Standing(g, r, Grow(g.commits, j.edit.commits), head)
  {
    var h := Standing(g, r, g.commits, MainHead(g));
    assert HeadAt(h, PathOf(g, r)) == Some(MainHead(g));
    assert g.branches[BranchOf(r) := MainHead(g)][BranchOf(r) := head] == g.branches[BranchOf(r) := head];
  }

  lemma BuildsTask(d: Doc, d0: Doc, g: Git, r: PlannerResult, j: StepInput, head: string, merge: string)
    requires RoomFor(g, r, j, head, merge) && Builds(j, r, head) && InHand(d, d0, g, r) && d.phase.Building?
    requires ValidPlanner(r) && r.status.Ready?
    requires |j.runs| == |d.body.options.verifyCommands|
    ensures var s := Iterate(d, Standing(g, r, g.commits, MainHead(g)), j);
      && s.GoesOn? && InHand(s.doc, d0, g, r) && s.doc.body.lastTaskHead == Some(head)
      && s.doc.phase == (if d.body.options.verifyCommands == [] then Auditing else Verifying)
      && s.git == Standing(g, r, Grow(g.commits, j.edit.commits), head)
  {
    var h := Standing(g, r, g.commits, MainHead(g));
    BuilderMovesHead(g, r, j, head, merge);
    IsHash(Grow(g.commits, j.edit.commits), g, j, head);
    BuildIsVerifiable(d, g, r, j, head, merge);
    BuildingOutcomes(d, h, j);
    BuildingKeepsRest(d.body, h, j);
    SavedStepGoesOn(d, h, j);
  }

  lemma IsHash(cs: map<string, Commit>, g: Git, j: StepInput, head: string)
    requires WellFormed(g) && EditFits(g, j.edit) && cs == Grow(g.commits, j.edit.commits) && head in cs
    ensures WellFormedCommits(cs) && IsCanonicalCommit(head)
  {
    GrowthIsWellFormed(g.commits, j.edit.commits);
  }

  lemma BuildIsVerifiable(d: Doc, g: Git, r: PlannerResult, j: StepInput, head: string, merge: string)
    requires RoomFor(g, r, j, head, merge) && Builds(j, r, head)
    requires d.body.task == Task(r.taskId, Some(PathOf(g, r)), Some(BranchOf(r)), Some(MainHead(g)))
    ensures LeavesVerifiable(d, Standing(g, r, Grow(g.commits, j.edit.commits), head), j)
    ensures var after := Standing(g, r, Grow(g.commits, j.edit.commits), head);
      forall h :: Verifiable(after, PathOf(g, r), BranchOf(r), MainHead(g), head, h) ==> h == head
  {
    IsHash(Grow(g.commits, j.edit.commits), g, j, head);
    var after := Standing(g, r, Grow(g.commits, j.edit.commits), head);
    assert Verifiable(after, PathOf(g, r), BranchOf(r), MainHead(g), head, head);
    assert Verifiable(after, OrEmpty(d.body.task.path), OrEmpty(d.body.task.branch), OrEmpty(d.body.task.base),
                      OrEmpty(j.builder.value.commit), head);
  }

  lemma BuildingKeepsRest(b: Body, g: Git, i: StepInput)
    requires HasMain(g)
    ensures var x := DoBuilding(b, g, i);
      && x.body.options == b.options && x.body.header == b.header && x.body.counters.accepted == b.counters.accepted
      && x.body.task == b.task && x.body.results.planner == b.results.planner
      && (HasWorktree(b.task) && b.results.planner.Some? ==> x.git == ApplyEdit(g, b.task.path.value, i.edit))
  {
  }

  /** Looking at the worktree changes nothing in it. */
  lemma LookingChangesNothing(g: Git, r: PlannerResult, cs: map<string, Commit>, head: string)
    ensures ApplyEdit(Standing(g, r, cs, head), PathOf(g, r), Edit([], None, [])) == Standing(g, r, cs, head)
  {
    var h := Standing(g, r, cs, head);
    assert h.branches[BranchOf(r) := head] == h.branches;
    assert h.trees[PathOf(g, r) := Worktree(BranchOf(r), [], map[])] == h.trees;
  }

  lemma ChecksTask(d: Doc, d0: Doc, g: Git, r: PlannerResult, i: StepInput, cs: map<string, Commit>, head: string)
    requires HasMain(g) && BranchOf(r) !in g.branches && Smooth(i, r) && InHand(d, d0, g, r) && d.phase.Verifying?
    requires |i.runs| == |d.body.options.verifyCommands| && d.body.lastTaskHead == Some(head)
    ensures var s := Iterate(d, Standing(g, r, cs, head), i);
      && s.GoesOn? && InHand(s.doc, d0, g, r) && s.doc.phase.Auditing? && s.git == Standing(g, r, cs, head)
      && s.doc.body.lastTaskHead == Some(head)
  {
    LookingChangesNothing(g, r, cs, head);
    VerifyingOutcomes(d, Standing(g, r, cs, head), i);
    SavedStepGoesOn(d, Standing(g, r, cs, head), i);
  }

  lemma AcceptsTask(d: Doc, d0: Doc, g: Git, r: PlannerResult, i: StepInput, cs: map<string, Commit>, head: string)
    requires HasMain(g) && BranchOf(r) !in g.branches && Smooth(i, r) && InHand(d, d0, g, r) && d.phase.Auditing?
    requires |i.runs| == |d.body.options.verifyCommands|
    ensures var s := Iterate(d, Standing(g, r, cs, head), i);
      && s.GoesOn? && InHand(s.doc, d0, g, r) && s.doc.phase.Merging? && s.git == Standing(g, r, cs, head)
      && s.doc.body.intents.mergePre == Some(MainHead(g)) && s.doc.body.intents.mergeTask == Some(head)
  {
    var h := Standing(g, r, cs, head);
    LookingChangesNothing(g, r, cs, head);
    AuditingOutcomes(d, h, i);
    AuditingKeepsRest(d.body, h, i);
    assert HeadAt(h, PathOf(g, r)) == Some(head) && MainHead(h) == MainHead(g);
    SavedStepGoesOn(d, h, i);
  }

  lemma AuditingKeepsRest(b: Body, g: Git, i: StepInput)
    requires HasMain(g)
    ensures var x := DoAuditing(b, g, i);
      && x.body.options == b.options && x.body.header == b.header && x.body.counters.accepted == b.counters.accepted
      && x.body.task == b.task && x.body.results.planner == b.results.planner && x.body.question == b.question
      && (HasWorktree(b.task) && b.results.planner.Some? && i.gitBefore.None? ==> x.git == ApplyEdit(g, b.task.path.value, i.edit))
  {
  }

  /** The repository with the task merged, while its worktree still stands. */
  lemma StandingIsWellFormed(g: Git, r: PlannerResult, j: StepInput, head: string, merge: string)
    requires RoomFor(g, r, j, head, merge) && Builds(j, r, head)
    ensures var h := Standing(g, r, Grow(g.commits, j.edit.commits), head);
      && WellFormed(h) && MainHead(h) == MainHead(g) && MainHead(g) in h.commits && head in h.commits
      && FreshCommit(h, merge) && HeadAt(h, PathOf(g, r)) == Some(head)
  {
    GrowthIsWellFormed(g.commits, j.edit.commits);
    NewTreeFits(g.trees, g.branches.Keys, g.mainBranch, PathOf(g, r), Worktree(BranchOf(r), [], map[]));
    assert g.branches[BranchOf(r) := head].Keys == g.branches.Keys + {BranchOf(r)};
  }

  /** Nothing has been merged since, so the merge is made. */
  lemma MergeIsMade(h: Git, head: string, choice: MergeChoice)
    requires WellFormed(h) && head in h.commits && h.mainStatus == []
    requires !Reaches(h.commits, MainHead(h), head) && choice.Merged?
    ensures ReconcileOrMerge(h, MainHead(h), head, choice) == (MergeInto(h, choice.commit, head), Ok(choice.commit))
  {
    NothingNewAtHead(h.commits, MainHead(h));
  }

  lemma MergesHead(d: Doc, h: Git, i: StepInput, path: string, head: string)
    requires Calm(i) && Given(d, h, i, Merging) && HasWorktree(d.body.task) && d.body.task.path == Some(path)
    requires WellFormed(h) && h.mainStatus == [] && HeadAt(h, path) == Some(head) && !Reaches(h.commits, MainHead(h), head)
    requires d.body.intents.mergePre == Some(MainHead(h)) && d.body.intents.mergeTask == Some(head) && i.merge.Merged?
    ensures var s := Iterate(d, h, i);
      && s.GoesOn? && s.doc.phase.CleanupWorktree? && s.git == MergeInto(h, i.merge.commit, head)
      && s.doc.body == d.body.(intents := d.body.intents.(mergeCommit := Some(i.merge.commit)))
  {
    MergeIsMade(h, head, i.merge);
    MergingOutcomes(d, h, i);
    SavedStepGoesOn(d, h, i);
  }

  lemma MergesTask(d: Doc, d0: Doc, g: Git, r: PlannerResult, i: StepInput, j: StepInput, head: string)
    requires Smooth(i, r) && RoomFor(g, r, j, head, i.merge.commit) && Builds(j, r, head) && InHand(d, d0, g, r) && d.phase.Merging?
    requires |i.runs| == |d.body.options.verifyCommands|
    requires d.body.intents.mergePre == Some(MainHead(g)) && d.body.intents.mergeTask == Some(head)
    requires var cs := Grow(g.commits, j.edit.commits); !Reaches(cs, MainHead(g), head)
    ensures var h, c := Standing(g, r, Grow(g.commits, j.edit.commits), head), i.merge.commit;
      var s := Iterate(d, h, i);
      && s.GoesOn? && InHand(s.doc, d0, g, r) && s.doc.phase.CleanupWorktree? && s.git == MergeInto(h, c, head)
      && s.doc.body.intents.mergeTask == Some(head) && s.doc.body.intents.mergeCommit == Some(c)
  {
    var h, c := Standing(g, r, Grow(g.commits, j.edit.commits), head), i.merge.commit;
    StandingIsWellFormed(g, r, j, head, c);
    MergesHead(d, h, i, PathOf(g, r), head);
  }

  /** After the merge the recorded facts stand. */
  lemma MergeIsStanding(d: Doc, g: Git, r: PlannerResult, j: StepInput, head: string, c: string)
    requires RoomFor(g, r, j, head, c) && Builds(j, r, head)
    requires d.body.task == Task(r.taskId, Some(PathOf(g, r)), Some(BranchOf(r)), Some(MainHead(g)))
    requires d.body.intents.mergeTask == Some(head) && d.body.intents.mergeCommit == Some(c)
    ensures var h := MergeInto(Standing(g, r, Grow(g.commits, j.edit.commits), head), c, head);
      && WellFormed(h) && MainHead(h) == c && h.commits[c].parents == [MainHead(g), head]
      && Reaches(h.commits, c, head) && MergeStands(d.body, h)
  {
    var k := Standing(g, r, Grow(g.commits, j.edit.commits), head);
    var h := MergeInto(k, c, head);
    StandingIsWellFormed(g, r, j, head, c);
    MergeIntoKeeps(k, c, head);
    assert h.commits[c].parents[1] == head;
    assert head in h.commits[c].parents && Reaches(h.commits, head, head) && Reaches(h.commits, c, c);
  }

  lemma RemovesTree(d: Doc, h: Git, i: StepInput, path: string)
    requires Calm(i) && Given(d, h, i, CleanupWorktree) && HasWorktree(d.body.task) && d.body.task.path == Some(path)
    requires MergeStands(d.body, h) && path in h.trees && Some(h.trees[path].branch) == d.body.task.branch && h.trees[path].status == []
    ensures var s := Iterate(d, h, i);
      s.GoesOn? && s.doc.phase.CleanupBranch? && s.doc.body == d.body && s.git == h.(trees := h.trees - {path})
  {
    CleanupWorktreeOutcomes(d, h, i);
    SavedStepGoesOn(d, h, i);
  }

  lemma TreeStands(g: Git, r: PlannerResult, cs: map<string, Commit>, head: string, c: string)
    requires HasMain(g) && PathOf(g, r) !in g.trees && BranchOf(r) !in g.branches
    ensures var h := MergeInto(Standing(g, r, cs, head), c, head);
      && PathOf(g, r) in h.trees && h.trees[PathOf(g, r)] == Worktree(BranchOf(r), [], map[])
      && h.trees - {PathOf(g, r)} == g.trees && HasMain(h)
  {
  }

  lemma RemovesWorktree(d: Doc, d0: Doc, g: Git, r: PlannerResult, i: StepInput, j: StepInput, head: string)
    requires Smooth(i, r) && RoomFor(g, r, j, head, i.merge.commit) && Builds(j, r, head) && InHand(d, d0, g, r) && d.phase.CleanupWorktree?
    requires |i.runs| == |d.body.options.verifyCommands|
    requires d.body.intents.mergeTask == Some(head) && d.body.intents.mergeCommit == Some(i.merge.commit)
    ensures var h := MergeInto(Standing(g, r, Grow(g.commits, j.edit.commits), head), i.merge.commit, head);
      var s := Iterate(d, h, i);
      && s.GoesOn? && s.doc.phase.CleanupBranch? && s.doc.body == d.body && s.git == h.(trees := g.trees)
  {
    var h := MergeInto(Standing(g, r, Grow(g.commits, j.edit.commits), head), i.merge.commit, head);
    MergeIsStanding(d, g, r, j, head, i.merge.commit);
    TreeStands(g, r, Grow(g.commits, j.edit.commits), head, i.merge.commit);
    RemovesTree(d, h, i, PathOf(g, r));
  }

  lemma FewerTreesStand(k: Git, trees: map<string, Worktree>, b: Body)
    requires WellFormed(k) && forall t :: t in trees ==> t in k.trees && k.trees[t] == trees[t]
    requires b.task.branch.Some? && MergeStands(b, k)
    ensures var h := k.(trees := trees); WellFormed(h) && MergeStands(b, h) && MainHead(h) == MainHead(k)
  {
  }

  lemma BranchIsFree(g: Git, r: PlannerResult, cs: map<string, Commit>, head: string, c: string)
    requires WellFormed(g) && BranchOf(r) !in g.branches
    ensures var h := MergeInto(Standing(g, r, cs, head), c, head);
      && BranchOf(r) in h.branches && h.branches[BranchOf(r)] == head && BranchOf(r) != h.mainBranch
      && (forall t :: t in g.trees ==> g.trees[t].branch != BranchOf(r))
      && h.branches - {BranchOf(r)} == g.branches[g.mainBranch := c]
  {
  }

  /** It still does once the worktree has gone, and the branch is checked out nowhere. */
  lemma MergeStaysStanding(d: Doc, g: Git, r: PlannerResult, j: StepInput, head: string, c: string)
    requires RoomFor(g, r, j, head, c) && Builds(j, r, head)
    requires d.body.task == Task(r.taskId, Some(PathOf(g, r)), Some(BranchOf(r)), Some(MainHead(g)))
    requires d.body.intents.mergeTask == Some(head) && d.body.intents.mergeCommit == Some(c)
    ensures var h := MergeInto(Standing(g, r, Grow(g.commits, j.edit.commits), head), c, head).(trees := g.trees);
      && WellFormed(h) && MergeStands(d.body, h) && MainHead(h) == c && c in h.commits && h.commits[c].parents == [MainHead(g), head]
      && BranchOf(r) in h.branches && h.branches[BranchOf(r)] == head && BranchOf(r) != h.mainBranch
      && Reaches(h.commits, c, head) && (forall t :: t in h.trees ==> h.trees[t].branch != BranchOf(r))
      && h.branches - {BranchOf(r)} == g.branches[g.mainBranch := c]
  {
    MergeIsStanding(d, g, r, j, head, c);
    FewerTreesStand(MergeInto(Standing(g, r, Grow(g.commits, j.edit.commits), head), c, head), g.trees, d.body);
    BranchIsFree(g, r, Grow(g.commits, j.edit.commits), head, c);
  }

  /** The last iteration of a task whose merge stands and whose branch has the merged head. */
  lemma ClosesTask(d: Doc, h: Git, i: StepInput, branch: string, head: string)
    requires Calm(i) && Given(d, h, i, CleanupBranch) && HasWorktree(d.body.task) && WellFormed(h)
    requires d.body.results.planner.Some? && ValidPlanner(d.body.results.planner.value) && d.body.results.planner.value.status.Ready?
    requires MergeStands(d.body, h) && d.body.task.branch == Some(branch) && d.body.question.None?
    requires branch in h.branches && branch != h.mainBranch && Reaches(h.commits, MainHead(h), h.branches[branch])
    requires forall t :: t in h.trees ==> h.trees[t].branch != branch
    ensures var s, r := Iterate(d, h, i), d.body.results.planner.value;
      && s.GoesOn? && s.doc.phase.Planning? && NoTask(s.doc.body.task)
      && s.doc.body.counters.accepted == d.body.counters.accepted + 1
      && s.doc.body.results.completed == Some(CompletedTask(OrEmpty(r.taskId), OrEmpty(r.objective), OrEmpty(r.rationale)))
      && s.git == h.(branches := h.branches - {branch})
  {
    CleanupBranchOutcomes(d, h, i);
    SavedStepGoesOn(d, h, i);
  }

  // ----------------------------------------------------------------- the cycle

  lemma IteratesOn(d: Doc, g: Git, first: StepInput, rest: seq<StepInput>)
    requires HasMain(g) && |first.runs| == |d.body.options.verifyCommands| && Iterate(d, g, first).GoesOn?
    ensures Iterates(d, g, [first] + rest) == Iterates(Iterate(d, g, first).doc, Iterate(d, g, first).git, rest)
  {
    assert ([first] + rest)[1..] == rest;
  }

  /** The steps of a cycle: the builder's input in the third, verification only where it is configured. */
  function CycleOf(o: Options, i: StepInput, j: StepInput): seq<StepInput> {
    [i] + ([i] + ([j] + ((if o.verifyCommands == [] then [] else [i]) + FinishOf(i))))
  }

  function FinishOf(i: StepInput): seq<StepInput> {
    [i] + ([i] + ([i] + ([i] + [])))
  }

  /** What a cycle has come to. */
  predicate CycleDone(s: Iteration, d0: Doc, g: Git, r: PlannerResult, head: string, merge: string)
    requires HasMain(g)
  {
    && s.GoesOn? && s.doc.phase.Planning? && NoTask(s.doc.body.task)
    && s.doc.body.counters.accepted == d0.body.counters.accepted + 1
    && s.doc.body.results.completed == Some(CompletedTask(OrEmpty(r.taskId), OrEmpty(r.objective), OrEmpty(r.rationale)))
    && HasMain(s.git) && MainHead(s.git) == merge && merge in s.git.commits && s.git.commits[merge].parents == [MainHead(g), head]
    && s.git.trees == g.trees && s.git.branches == g.branches[g.mainBranch := merge]
  }

  /** The second half: from the verdict to the merge, and from there to planning. */
  lemma FinishCycle(d: Doc, d0: Doc, g: Git, r: PlannerResult, i: StepInput, j: StepInput, head: string)
    requires Smooth(i, r) && RoomFor(g, r, j, head, i.merge.commit) && Builds(j, r, head) && InHand(d, d0, g, r) && d.phase.Auditing?
    requires |i.runs| == |d.body.options.verifyCommands|
    ensures CycleDone(Iterates(d, Standing(g, r, Grow(g.commits, j.edit.commits), head), FinishOf(i)), d0, g, r, head, i.merge.commit)
  {
    var h := Standing(g, r, Grow(g.commits, j.edit.commits), head);
    AcceptsTask(d, d0, g, r, i, Grow(g.commits, j.edit.commits), head);
    var s1 := Iterate(d, h, i);
    MergesTask(s1.doc, d0, g, r, i, j, head);
    var s2 := Iterate(s1.doc, h, i);
    CleansUp(s2.doc, d0, g, r, i, j, head);
    IteratesOn(d, h, i, [i] + ([i] + ([i] + [])));
    IteratesOn(s1.doc, h, i, [i] + ([i] + []));
  }

  /** After the last iteration nothing is left of the task but its merge. */
  lemma EndsCycle(d: Doc, d0: Doc, g: Git, r: PlannerResult, i: StepInput, h: Git, head: string, c: string)
    requires HasMain(g) && WellFormed(h) && Calm(i) && Given(d, h, i, CleanupBranch) && InHand(d, d0, g, r)
    requires ValidPlanner(r) && r.status.Ready? && MergeStands(d.body, h)
    requires BranchOf(r) in h.branches && BranchOf(r) != h.mainBranch && Reaches(h.commits, MainHead(h), h.branches[BranchOf(r)])
    requires forall t :: t in h.trees ==> h.trees[t].branch != BranchOf(r)
    requires h.trees == g.trees && h.mainBranch == g.mainBranch && h.branches - {BranchOf(r)} == g.branches[g.mainBranch := c]
    requires c in h.commits && h.commits[c].parents == [MainHead(g), head]
    ensures CycleDone(Iterate(d, h, i), d0, g, r, head, c)
  {
    ClosesTask(d, h, i, BranchOf(r), head);
  }

  lemma CleansUp(d: Doc, d0: Doc, g: Git, r: PlannerResult, i: StepInput, j: StepInput, head: string)
    requires Smooth(i, r) && RoomFor(g, r, j, head, i.merge.commit) && Builds(j, r, head) && InHand(d, d0, g, r) && d.phase.CleanupWorktree?
    requires |i.runs| == |d.body.options.verifyCommands|
    requires d.body.intents.mergeTask == Some(head) && d.body.intents.mergeCommit == Some(i.merge.commit)
    ensures var h := MergeInto(Standing(g, r, Grow(g.commits, j.edit.commits), head), i.merge.commit, head);
      CycleDone(Iterates(d, h, [i] + ([i] + [])), d0, g, r, head, i.merge.commit)
  {
    var h := MergeInto(Standing(g, r, Grow(g.commits, j.edit.commits), head), i.merge.commit, head);
    RemovesWorktree(d, d0, g, r, i, j, head);
    var s1 := Iterate(d, h, i);
    MergeStaysStanding(s1.doc, g, r, j, head, i.merge.commit);
    EndsCycle(s1.doc, d0, g, r, i, s1.git, head, i.merge.commit);
    MergeIsStanding(d, g, r, j, head, i.merge.commit);
    IteratesOn(d, h, i, [i] + []);
    IteratesOn(s1.doc, s1.git, i, []);
  }

  /** Progress: a READY plan with room for its task, a COMPLETE build that leaves it clean, and an
      ACCEPT, with nothing failing, bring the run back to planning with one more task accepted,
      exactly its head merged onto the integration branch, and its worktree and branch gone. */
  lemma FaultFreeCycle(d: Doc, g: Git, r: PlannerResult, i: StepInput, j: StepInput, head: string)
    requires AtStart(d, g) && Smooth(i, r) && RoomFor(g, r, j, head, i.merge.commit) && Builds(j, r, head)
    requires |i.runs| == |j.runs| == |d.body.options.verifyCommands|
    ensures CycleDone(Iterates(d, g, CycleOf(d.body.options, i, j)), d, g, r, head, i.merge.commit)
  {
    var cs := Grow(g.commits, j.edit.commits);
    PlansWorktree(d, g, i, r);
    var s1 := Iterate(d, g, i);
    MakesWorktree(s1.doc, d, g, i, r, j, head, i.merge.commit);
    var s2 := Iterate(s1.doc, g, i);
    BuildsTask(s2.doc, d, g, r, j, head, i.merge.commit);
    var s3 := Iterate(s2.doc, s2.git, j);
    var rest := (if d.body.options.verifyCommands == [] then [] else [i]) + FinishOf(i);
    IteratesOn(d, g, i, [i] + ([j] + rest));
    IteratesOn(s1.doc, g, i, [j] + rest);
    IteratesOn(s2.doc, s2.git, j, rest);
    if d.body.options.verifyCommands == [] {
      assert rest == FinishOf(i);
      FinishCycle(s3.doc, d, g, r, i, j, head);
    } else {
      ChecksTask(s3.doc, d, g, r, i, cs, head);
      IteratesOn(s3.doc, s3.git, i, FinishOf(i));
      FinishCycle(Iterate(s3.doc, s3.git, i).doc, d, g, r, i, j, head);
    }
  }
}
