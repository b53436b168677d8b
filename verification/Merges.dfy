/** The integration branch grows by exactly one reviewed merge per accepted task. */
module Merges {
  import opened Text
  import opened Document
  import opened Repository
  import opened Transitions
  import opened RepositoryFacts
  import opened Closure
  import opened Conservation
  import opened Carrying

  /** The first-parent chain from `head` down to `start` consists of two-parent merges of exactly
      the given task heads, newest first. */
  predicate MergesFrom(cs: map<string, Commit>, head: string, start: string, tasks: seq<string>)
    decreases tasks
  {
    if tasks == [] then head == start
    else
      && head in cs
      && |cs[head].parents| == 2
      && cs[head].parents[1] == tasks[0]
      && MergesFrom(cs, cs[head].parents[0], start, tasks[1..])
  }

  lemma {:induction false} MergesFromStays(small: map<string, Commit>, big: map<string, Commit>, head: string,
                                           start: string, tasks: seq<string>)
    requires Extends(small, big) && MergesFrom(small, head, start, tasks)
    ensures MergesFrom(big, head, start, tasks)
    decreases tasks
  {
    if tasks != [] {
      MergesFromStays(small, big, small[head].parents[0], start, tasks[1..]);
    }
  }

  // -------------------------------------------------------- merge attempts

  predicate IsMergeOfBoth(cs: map<string, Commit>, c: string, pre: string, task: string) {
    c in cs && cs[c].parents == [pre, task]
  }

  /** Before the attempt the integration HEAD is `pre`, or already the reviewed merge onto it. */
  predicate ReadyToMerge(g: Git, pre: string, task: string)
    requires HasMain(g)
  {
    MainHead(g) == pre || (MainHead(g) != pre && IsMergeOfBoth(g.commits, MainHead(g), pre, task))
  }

  lemma {:induction false} FirstParentsAreReached(cs: map<string, Commit>, d: string)
    requires WellFormedCommits(cs) && d in cs
    ensures forall c :: c in FirstParents(cs, d) ==> Reaches(cs, d, c)
    decreases cs[d].gen
  {
    if cs[d].parents != [] {
      var p := cs[d].parents[0];
      assert p in cs[d].parents && p in cs && cs[p].gen < cs[d].gen;
      FirstParentsAreReached(cs, p);
      forall c | c in FirstParents(cs, d)
        ensures Reaches(cs, d, c)
      {
        assert FirstParents(cs, d) == [d] + FirstParents(cs, p);
        assert c == d || c in FirstParents(cs, p);
      }
    }
  }

  /** Nothing lies between a commit and itself. */
  lemma NothingNewAtHead(cs: map<string, Commit>, pre: string)
    requires WellFormedCommits(cs) && pre in cs
    ensures forall c :: c !in RevList(cs, pre, pre)
  {
    FirstParentsAreReached(cs, pre);
  }

  lemma ExistingMergeIsListed(cs: map<string, Commit>, c: string, pre: string, task: string)
    requires WellFormedCommits(cs) && pre in cs && IsMergeOfBoth(cs, c, pre, task)
    ensures Reaches(cs, c, pre) && FirstMergeOf(cs, RevList(cs, pre, c), task) == Some(c)
  {
    assert cs[c].parents[0] == pre;
    assert pre in cs[c].parents && Reaches(cs, pre, pre);
    if Reaches(cs, pre, c) {
      AncestorIsOlder(cs, pre, c);
    }
    assert FirstParents(cs, c)[0] == c;
    assert RevList(cs, pre, c)[0] == c;
  }

  /** `reconcile_or_merge_task` moves the integration HEAD at most once, from `pre` to a commit
      with parents exactly (`pre`, `task`), and succeeds only with that commit at the HEAD. */
  lemma AttemptIsExact(g: Git, pre: string, task: string, choice: MergeChoice)
    requires WellFormed(g) && (choice.Merged? ==> FreshCommit(g, choice.commit)) && pre in g.commits
    requires ReadyToMerge(g, pre, task)
    ensures var (h, r) := ReconcileOrMerge(g, pre, task, choice);
      && HasMain(h) && ReadyToMerge(h, pre, task)
      && (MainHead(h) != MainHead(g) ==> MainHead(g) == pre)
      && (r.Ok? ==> MainHead(h) == r.value && IsMergeOfBoth(h.commits, r.value, pre, task) && r.value != pre)
  {
    if MainHead(g) == pre {
      NothingNewAtHead(g.commits, pre);
    } else {
      ExistingMergeIsListed(g.commits, MainHead(g), pre, task);
    }
  }

  // ----------------------------------------------------------- the ledger

  predicate IsLive(p: Phase) {
    !IsTerminal(p) && IsMergeOrCleanup(p)
  }

  /** The reviewed merge of the task in hand is on the integration branch. */
  predicate IsMerged(b: Body, p: Phase, g: Git)
    requires HasMain(g)
  {
    IsLive(p) && b.intents.mergePre != Some(MainHead(g))
  }

  /** The task in hand while it is being merged and cleaned up. */
  predicate MergeInHand(b: Body, p: Phase, g: Git)
    requires HasMain(g)
  {
    IsLive(p) ==>
      && b.intents.mergePre.Some? && b.intents.mergeTask.Some? && b.task.branch.Some?
      && b.intents.mergePre.value in g.commits
      && ReadyToMerge(g, b.intents.mergePre.value, b.intents.mergeTask.value)
      && (!p.Merging? ==>
            && IsMerged(b, p, g) && b.intents.mergeCommit == Some(MainHead(g))
            && (b.task.branch.value in g.branches ==> Some(g.branches[b.task.branch.value]) == b.intents.mergeTask))
  }

  /** The integration branch is the start commit plus the merges in the ledger: one for each
      accepted task, and one more while a merged task is being cleaned up. */
  predicate LedgerAgrees(b: Body, p: Phase, g: Git, merged: seq<string>)
    requires HasMain(g)
  {
    && MergesFrom(g.commits, MainHead(g), b.header.startCommit, merged)
    && MergeInHand(b, p, g)
    && |merged| == b.counters.accepted + (if IsMerged(b, p, g) then 1 else 0)
    && (IsMerged(b, p, g) ==> merged != [] && merged[0] == b.intents.mergeTask.value)
  }

  /** The ledger after a step: the audited task head is added when the integration HEAD moves. */
  function Recorded(b: Body, g: Git, h: Git, merged: seq<string>): seq<string>
    requires HasMain(g) && HasMain(h)
  {
    if MainHead(h) != MainHead(g) then [OrEmpty(b.intents.mergeTask)] + merged else merged
  }

  lemma SameHeadKeepsLedger(b: Body, p: Phase, g: Git, h: Git, merged: seq<string>)
    requires HasMain(g) && HasMain(h) && LedgerAgrees(b, p, g, merged)
    requires Extends(g.commits, h.commits) && MainHead(h) == MainHead(g)
    requires IsLive(p) && !p.Merging? && b.task.branch.Some? && b.task.branch.value in h.branches ==>
               b.task.branch.value in g.branches && h.branches[b.task.branch.value] == g.branches[b.task.branch.value]
    ensures LedgerAgrees(b, p, h, merged)
  {
    MergesFromStays(g.commits, h.commits, MainHead(g), b.header.startCommit, merged);
  }

  lemma AttemptKeepsLedger(b: Body, g: Git, choice: MergeChoice, merged: seq<string>)
    requires WellFormed(g) && (choice.Merged? ==> FreshCommit(g, choice.commit)) && LedgerAgrees(b, Merging, g, merged)
    ensures var (h, r) := ReconcileOrMerge(g, b.intents.mergePre.value, b.intents.mergeTask.value, choice);
      && HasMain(h) && LedgerAgrees(b, Merging, h, Recorded(b, g, h, merged))
      && (r.Ok? ==> IsMerged(b, Merging, h) && r.value == MainHead(h))
  {
    var pre, task := b.intents.mergePre.value, b.intents.mergeTask.value;
    var h := ReconcileOrMerge(g, pre, task, choice).0;
    AttemptIsExact(g, pre, task, choice);
    MergeKeeps(g, pre, task, choice);
    if MainHead(h) != MainHead(g) {
      MergesFromStays(g.commits, h.commits, MainHead(g), b.header.startCommit, merged);
      assert ([task] + merged)[1..] == merged;
    } else {
      SameHeadKeepsLedger(b, Merging, g, h, merged);
    }
  }

  lemma CommittedKeepsLedger(b: Body, g: Git, i: StepInput, r: Outcome<string>, merged: seq<string>)
    requires HasMain(g) && LedgerAgrees(b, Merging, g, merged)
    requires r.Ok? ==> IsMerged(b, Merging, g) && r.value == MainHead(g)
    requires b.task.branch.Some? && b.task.branch.value in g.branches ==> Some(g.branches[b.task.branch.value]) == b.intents.mergeTask
    ensures var x := MergeAttempted(b, g, r, i);
      LedgerAgrees(x.body, x.phase, g, merged)
  {
  }

  /** The step neither gives the run up nor resumes elsewhere than where it stopped. */
  predicate StaysLive(x: Dispatched, p: Phase) {
    && !x.raise.LoopFailure? && !x.raise.InputRequired? && !IsTerminal(x.phase)
    && (x.raise.Operational? ==> x.phase == RetryPhaseFor(x.raise.fault.kind, p))
  }

  lemma MergingKeepsLedger(b: Body, g: Git, i: StepInput, merged: seq<string>)
    requires WellFormed(g) && Carried(b, g, Merging) && InputFits(b, g, i) && LedgerAgrees(b, Merging, g, merged)
    ensures var x := DoMerging(b, g, i);
      && LedgerAgrees(b, Merging, x.git, Recorded(b, g, x.git, merged))
      && LedgerAgrees(x.body, x.phase, x.git, Recorded(b, g, x.git, merged))
      && StaysLive(x, Merging)
  {
    if i.gitBefore.None? && HeadAt(g, b.task.path.value) == b.intents.mergeTask {
      var (h, r) := ReconcileOrMerge(g, b.intents.mergePre.value, b.intents.mergeTask.value, i.merge);
      AttemptKeepsLedger(b, g, i.merge, merged);
      MergeKeeps(g, b.intents.mergePre.value, b.intents.mergeTask.value, i.merge);
      CommittedKeepsLedger(b, h, i, r, Recorded(b, g, h, merged));
    }
  }

  lemma CleanupWorktreeKeepsLedger(b: Body, g: Git, i: StepInput, merged: seq<string>)
    requires WellFormed(g) && Carried(b, g, CleanupWorktree) && LedgerAgrees(b, CleanupWorktree, g, merged)
    ensures var x := DoCleanupWorktree(b, g, i);
      && MainHead(x.git) == MainHead(g)
      && LedgerAgrees(b, CleanupWorktree, x.git, merged) && LedgerAgrees(x.body, x.phase, x.git, merged)
      && StaysLive(x, CleanupWorktree)
  {
  }

  lemma FinishKeepsLedger(b: Body, g: Git, merged: seq<string>)
    requires HasMain(g) && PlanComplete(b.results) && LedgerAgrees(b, CleanupBranch, g, merged)
    ensures LedgerAgrees(FinishTask(b, g).body, FinishTask(b, g).phase, g, merged)
    ensures FinishTask(b, g).raise.NoRaise?
  {
  }

  lemma CleanupBranchKeepsLedger(b: Body, g: Git, i: StepInput, merged: seq<string>)
    requires WellFormed(g) && Carried(b, g, CleanupBranch) && LedgerAgrees(b, CleanupBranch, g, merged)
    ensures var x := DoCleanupBranch(b, g, i);
      && MainHead(x.git) == MainHead(g)
      && LedgerAgrees(b, CleanupBranch, x.git, merged) && LedgerAgrees(x.body, x.phase, x.git, merged)
      && StaysLive(x, CleanupBranch)
  {
    if DeleteBranch(g, b.task.branch.value).Ok? {
      DeleteKeeps(g, b.task.branch.value);
      var h := DeleteBranch(g, b.task.branch.value).value;
      SameHeadKeepsLedger(b, CleanupBranch, g, h, merged);
      FinishKeepsLedger(b, h, merged);
    }
  }

  // --------------------------------------------------------- every dispatch

  /** Before the merge a step neither moves the integration HEAD nor accepts a task. */
  predicate LeavesMain(b: Body, g: Git, x: Dispatched)
    requires HasMain(g)
  {
    && HasMain(x.git) && MainHead(x.git) == MainHead(g)
    && x.body.header == b.header && x.body.counters.accepted == b.counters.accepted
    && (IsMergeOrCleanup(x.phase) ==>
          x.phase.Merging? && x.body.intents.mergePre == Some(MainHead(g)) && x.body.intents.mergeTask.Some? && x.body.task.branch.Some?)
  }

  lemma WorktreeEditLeavesMain(b: Body, g: Git, i: StepInput)
    requires WellFormed(g) && EditFits(g, i.edit)
    ensures HasMain(WorktreeEdit(b.task, g, i.edit)) && MainHead(WorktreeEdit(b.task, g, i.edit)) == MainHead(g)
  {
    if b.task.path.Some? {
      EditKeeps(g, b.task.path.value, i.edit);
    }
  }

  lemma CreatingLeavesMain(b: Body, g: Git, i: StepInput)
    requires WellFormed(g)
    ensures LeavesMain(b, g, DoCreatingWorktree(b, g, i))
  {
  }

  lemma AuditingLeavesMain(b: Body, g: Git, i: StepInput)
    requires WellFormed(g) && EditFits(g, i.edit)
    ensures LeavesMain(b, g, DoAuditing(b, g, i))
  {
    WorktreeEditLeavesMain(b, g, i);
  }

  lemma PlanningLeavesMain(b: Body, g: Git, i: StepInput)
    requires WellFormed(g) && EditFits(g, i.edit)
    ensures LeavesMain(b, g, DoPlanning(b, g, i))
  {
    WorktreeEditLeavesMain(b, g, i);
  }

  lemma ArchitectingLeavesMain(b: Body, g: Git, i: StepInput)
    requires WellFormed(g) && EditFits(g, i.edit)
    ensures LeavesMain(b, g, DoArchitecting(b, g, i))
  {
    WorktreeEditLeavesMain(b, g, i);
  }

  lemma BuildingLeavesMain(b: Body, g: Git, i: StepInput)
    requires WellFormed(g) && EditFits(g, i.edit)
    ensures LeavesMain(b, g, DoBuilding(b, g, i))
  {
    WorktreeEditLeavesMain(b, g, i);
  }

  lemma VerifyingLeavesMain(b: Body, g: Git, i: StepInput)
    requires WellFormed(g) && EditFits(g, i.edit) && |i.runs| == |b.options.verifyCommands|
    ensures LeavesMain(b, g, DoVerifying(b, g, i))
  {
    WorktreeEditLeavesMain(b, g, i);
  }

  lemma RecordingDecisionLeavesMain(b: Body, g: Git, i: StepInput)
    requires WellFormed(g)
    ensures LeavesMain(b, g, DoRecordingDecision(b, g, i))
  {
  }

  lemma PreparingLeavesMain(b: Body, p: Phase, g: Git, i: StepInput)
    requires HasMain(g) && !IsMergeOrCleanup(p)
    ensures LeavesMain(b, g, PrepareRecordDecision(b, p, g, i))
  {
  }

  lemma ResolvingLeavesMain(b: Body, g: Git, answer: string, i: StepInput)
    requires HasMain(g)
    ensures LeavesMain(b, g, ResolveInput(b, g, answer, i))
  {
    if b.question.Some? && b.question.value.kind.DecisionApproval? {
      PreparingLeavesMain(b.(question := Some(b.question.value.(answer := Some(answer)))), AwaitingInput, g, i);
    }
  }

  lemma EarlyLeavesMain(d: Doc, g: Git, i: StepInput)
    requires WellFormed(g) && InputFits(d.body, g, i)
    requires !IsTerminal(d.phase) && !IsMergeOrCleanup(d.phase) && !d.phase.OperationalFailure?
    ensures LeavesMain(d.body, g, Dispatch(d, g, i))
  {
    match d.phase
    case Planning => PlanningLeavesMain(d.body, g, i);
    case Architecting => ArchitectingLeavesMain(d.body, g, i);
    case Building => BuildingLeavesMain(d.body, g, i);
    case Verifying => VerifyingLeavesMain(d.body, g, i);
    case Auditing => AuditingLeavesMain(d.body, g, i);
    case AwaitingInput => if i.answer.Some? { ResolvingLeavesMain(d.body, g, i.answer.value, i); }
    case CreatingWorktree => CreatingLeavesMain(d.body, g, i);
    case RecordingDecision => RecordingDecisionLeavesMain(d.body, g, i);
  }

  /** Also for the document already on disk, if the step is never saved. */
  lemma EffectKeepsLedger(d: Doc, g: Git, i: StepInput, merged: seq<string>)
    requires CarriedDoc(d, g) && InputFits(d.body, g, i) && !IsTerminal(d.phase)
    requires LedgerAgrees(d.body, EffectivePhase(d), g, merged)
    ensures var h := Dispatch(d, g, i).git;
      HasMain(h) && LedgerAgrees(d.body, EffectivePhase(d), h, Recorded(d.body, g, h, merged))
  {
    if IsMergeOrCleanup(d.phase) {
      LateKeepsLedger(d, g, i, merged);
    } else if !d.phase.OperationalFailure? {
      DispatchConserves(d, g, i);
      EarlyLeavesMain(d, g, i);
      SameHeadKeepsLedger(d.body, d.phase, g, Dispatch(d, g, i).git, merged);
    }
  }

  lemma EarlyKeepsLedger(d: Doc, g: Git, x: Dispatched, merged: seq<string>)
    requires WellFormed(g) && LedgerAgrees(d.body, d.phase, g, merged) && Extends(g.commits, x.git.commits)
    requires !IsTerminal(d.phase) && !IsMergeOrCleanup(d.phase) && !d.phase.OperationalFailure?
    requires LeavesMain(d.body, g, x) && Goes(x, d, d.phase)
    ensures forall p :: p in Resumes(d, x) ==> LedgerAgrees(x.body, p, x.git, merged)
  {
    MergesFromStays(g.commits, x.git.commits, MainHead(g), d.body.header.startCommit, merged);
  }

  lemma LiveKeepsLedger(d: Doc, x: Dispatched, merged: seq<string>)
    requires HasMain(x.git) && StaysLive(x, d.phase) && LedgerAgrees(x.body, x.phase, x.git, merged)
    ensures forall p :: p in Resumes(d, x) ==> LedgerAgrees(x.body, p, x.git, merged)
  {
  }

  lemma DispatchKeepsLedger(d: Doc, g: Git, i: StepInput, merged: seq<string>)
    requires CarriedDoc(d, g) && InputFits(d.body, g, i) && !IsTerminal(d.phase)
    requires LedgerAgrees(d.body, EffectivePhase(d), g, merged)
    ensures var x := Dispatch(d, g, i);
      && HasMain(x.git)
      && forall p :: p in Resumes(d, x) ==> LedgerAgrees(x.body, p, x.git, Recorded(d.body, g, x.git, merged))
  {
    var x := Dispatch(d, g, i);
    var recorded := Recorded(d.body, g, x.git, merged);
    if IsMergeOrCleanup(d.phase) {
      LateKeepsLedger(d, g, i, merged);
      LiveKeepsLedger(d, x, recorded);
    } else if d.phase.OperationalFailure? {
      LiveKeepsLedger(d, x, recorded);
    } else {
      DispatchGoes(d, g, i);
      DispatchConserves(d, g, i);
      EarlyLeavesMain(d, g, i);
      EarlyKeepsLedger(d, g, x, merged);
    }
  }

  lemma LateKeepsLedger(d: Doc, g: Git, i: StepInput, merged: seq<string>)
    requires CarriedDoc(d, g) && InputFits(d.body, g, i) && IsMergeOrCleanup(d.phase)
    requires LedgerAgrees(d.body, d.phase, g, merged)
    ensures var x := Dispatch(d, g, i);
      && HasMain(x.git) && StaysLive(x, d.phase)
      && LedgerAgrees(d.body, d.phase, x.git, Recorded(d.body, g, x.git, merged))
      && LedgerAgrees(x.body, x.phase, x.git, Recorded(d.body, g, x.git, merged))
  {
    if d.phase.Merging? {
      MergingKeepsLedger(d.body, g, i, merged);
    } else {
      CleanupKeepsLedger(d, g, i, merged);
    }
  }

  lemma CleanupKeepsLedger(d: Doc, g: Git, i: StepInput, merged: seq<string>)
    requires CarriedDoc(d, g) && InputFits(d.body, g, i) && (d.phase.CleanupWorktree? || d.phase.CleanupBranch?)
    requires LedgerAgrees(d.body, d.phase, g, merged)
    ensures var x := Dispatch(d, g, i);
      && HasMain(x.git) && MainHead(x.git) == MainHead(g) && StaysLive(x, d.phase)
      && LedgerAgrees(d.body, d.phase, x.git, merged) && LedgerAgrees(x.body, x.phase, x.git, merged)
  {
    if d.phase.CleanupWorktree? {
      CleanupWorktreeKeepsLedger(d.body, g, i, merged);
    } else {
      CleanupBranchKeepsLedger(d.body, g, i, merged);
    }
  }
}
