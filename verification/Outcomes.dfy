/** Where each phase leads, and exactly when: what a dispatch must come to, said of the plans,
    reports, verdicts and answers it was given. */
module Outcomes {
  import opened Text
  import opened Contracts
  import opened Document
  import opened Repository
  import opened Decisions
  import opened Transitions
  import opened Invariant
  import opened RepositoryFacts
  import opened Commands

  predicate Given(d: Doc, g: Git, i: StepInput, p: Phase) {
    d.phase == p && !IsTerminal(p) && HasMain(g) && |i.runs| == |d.body.options.verifyCommands|
  }

  predicate Goes(x: Dispatched, p: Phase) {
    x.raise.NoRaise? && x.phase == p
  }

  predicate FailsWith(x: Dispatched, p: Phase, kind: ErrorKind) {
    x.raise.Operational? && x.phase == p && x.raise.fault.kind == kind
  }

  predicate GivesUp(x: Dispatched, reason: Reason) {
    x.raise == LoopFailure(reason)
  }

  /** An agent's own failure is recorded under its kind, with its message; any other exception gets out. */
  predicate AgentFails(x: Dispatched, p: Phase, kind: AgentError, message: string) {
    match kind
    case TimedOut => x.raise == Operational(Fault(TimeoutKind, Reported(message))) && x.phase == p
    case InvocationFailed => x.raise == Operational(Fault(AgentInvocationKind, Reported(message))) && x.phase == p
    case BadContract => x.raise == Operational(Fault(ContractKind, Reported(message))) && x.phase == p
    case OtherAgentError => x.raise.Escapes?
  }

  // --------------------------------------------------------------- planning

  predicate LimitReached(b: Body) {
    b.counters.accepted >= b.options.maxAcceptedTasks
  }

  predicate Planned(b: Body, i: StepInput, status: PlannerStatus) {
    !LimitReached(b) && i.planner.Replied? && i.planner.value.status == status
  }

  /** Planning ends the run exactly when the task limit is reached or there is no more work and no
      task in hand; every other plan is followed. */
  lemma PlanningOutcomes(d: Doc, g: Git, i: StepInput)
    requires Given(d, g, i, Planning)
    ensures var x, b := Dispatch(d, g, i), d.body;
      && (Goes(x, Done) <==> LimitReached(b) || (Planned(b, i, NoMoreWork) && b.task.path.None?))
      && (GivesUp(x, TaskStillActive) <==> Planned(b, i, NoMoreWork) && b.task.path.Some?)
      && (Planned(b, i, Ready) ==> x.body.results.planner == Some(i.planner.value))
      && (Planned(b, i, Ready) && b.task.path.Some? ==>
            Goes(x, if i.planner.value.decisionRequired then Architecting else Building))
      && (!LimitReached(b) && i.planner.AgentFailed? ==> AgentFails(x, Planning, i.planner.kind, i.planner.message) && x.body == b)
      && (x.phase == Planning || x.phase == Done || Planned(b, i, Ready))
  {
  }

  /** A READY plan with a usable id gets its worktree intended: where, on which branch, from which commit. */
  lemma ReadyPlanIntendsWorktree(d: Doc, g: Git, i: StepInput)
    requires Given(d, g, i, Planning) && Planned(d.body, i, Ready) && d.body.task.path.None?
    ensures var x, id := Dispatch(d, g, i), OrEmpty(i.planner.value.taskId);
      && (Goes(x, CreatingWorktree) <==> Sanitize(id) != "" && i.gitBefore.None?)
      && (Sanitize(id) != "" ==>
            && x.body.intents.treePath == Some(g.root + "-" + Sanitize(id))
            && x.body.intents.treeBranch == Some("loop/" + Sanitize(id))
            && x.body.intents.treeBase == (if x.raise.NoRaise? then Some(g.branches[g.mainBranch]) else d.body.intents.treeBase))
      && (!x.raise.NoRaise? ==> FailsWith(x, Planning, GitKind))
      && x.body == d.body.(results := d.body.results.(planner := Some(i.planner.value)), intents := x.body.intents)
      && x.body.intents == d.body.intents.(treePath := x.body.intents.treePath, treeBranch := x.body.intents.treeBranch,
                                           treeBase := x.body.intents.treeBase)
      && x.git == g
  {
  }

  /** A READY plan for the task in hand starts it afresh, with its decision open if it needs one. */
  lemma ReadyPlanStartsTask(d: Doc, g: Git, i: StepInput)
    requires Given(d, g, i, Planning) && Planned(d.body, i, Ready) && d.body.task.path.Some?
    ensures var x, r := Dispatch(d, g, i), i.planner.value;
      && x.body.counters == d.body.counters.(revisions := 0, guidance := 0)
      && x.body.task == d.body.task && x.body.intents == d.body.intents
      && x.body.results.decision == (if r.decisionRequired
                                     then Some(DecisionRequest(FromPlanner, OrEmpty(r.decisionQuestion), OrEmpty(r.decisionRationale)))
                                     else d.body.results.decision)
  {
  }

  // ------------------------------------------------------ creating a worktree

  /** The worktree can be made, or was made before and is untouched. */
  predicate CanStand(g: Git, path: string, branch: string, base: string) {
    && base in g.commits
    && ((path !in g.trees && path !in g.strays && branch !in g.branches)
        || (path in g.trees && branch in g.branches && g.trees[path].branch == branch
            && g.branches[branch] == base && g.trees[path].status == []))
  }

  predicate Intended(g: Git, id: string, path: string, branch: string) {
    Sanitize(id) != "" && path == g.root + "-" + Sanitize(id) && branch == "loop/" + Sanitize(id)
  }

  lemma WorktreeMadeExactly(g: Git, id: string, path: string, branch: string, base: string)
    requires WellFormed(g)
    ensures CreateOrReconcile(g, id, path, branch, base).Ok? <==> Intended(g, id, path, branch) && CanStand(g, path, branch, base)
    ensures CreateOrReconcile(g, id, path, branch, base).Ok? ==>
              var h := CreateOrReconcile(g, id, path, branch, base).value;
              && path in h.trees && h.trees[path].branch == branch && h.trees[path].status == []
              && branch in h.branches && h.branches[branch] == base
              && h.commits == g.commits && h.mainBranch == g.mainBranch && h.mainStatus == g.mainStatus && h.root == g.root
              && (forall t :: t in g.trees && t != path ==> t in h.trees && h.trees[t] == g.trees[t])
              && (forall b :: b in g.branches && b != branch ==> b in h.branches && h.branches[b] == g.branches[b])
  {
  }

  /** The intended worktree becomes the task's, or the failure is one of Git or of provisioning. */
  lemma CreatingOutcomes(d: Doc, g: Git, i: StepInput)
    requires Given(d, g, i, CreatingWorktree) && WellFormed(g)
    requires var n := d.body.intents; n.treePath.Some? && n.treeBranch.Some? && n.treeBase.Some?
    requires d.body.results.planner.Some? && PresentNonEmpty(d.body.results.planner.value.taskId)
    ensures var x, n, r := Dispatch(d, g, i), d.body.intents, d.body.results.planner.value;
      var stands := Intended(g, r.taskId.value, n.treePath.value, n.treeBranch.value)
                    && CanStand(g, n.treePath.value, n.treeBranch.value, n.treeBase.value);
      var provisioned := d.body.options.provisionCommands == [] || i.provisionFault.None?;
      && (x.raise.NoRaise? <==> i.gitBefore.None? && stands && provisioned)
      && (x.raise.NoRaise? ==>
            && x.phase == (if r.decisionRequired then Architecting else Building)
            && x.body.task == Task(r.taskId, n.treePath, n.treeBranch, n.treeBase)
            && x.body.intents == n.(treePath := None, treeBranch := None, treeBase := None)
            && x.body.counters == d.body.counters.(revisions := 0, guidance := 0)
            && x.body.results.planner == d.body.results.planner
            && x.git == CreateOrReconcile(g, r.taskId.value, n.treePath.value, n.treeBranch.value, n.treeBase.value).value)
      && (i.gitBefore.None? && stands && !provisioned ==> FailsWith(x, CreatingWorktree, ProvisioningKind))
      && (i.gitBefore.Some? || !stands ==> FailsWith(x, CreatingWorktree, GitKind))
      && (!x.raise.NoRaise? ==> x.body == d.body)
  {
    var n := d.body.intents;
    WorktreeMadeExactly(g, d.body.results.planner.value.taskId.value, n.treePath.value, n.treeBranch.value, n.treeBase.value);
  }

  // ------------------------------------------------------------ architecting

  predicate Answered(b: Body, i: StepInput, status: ArchitectStatus) {
    && b.results.decision.Some? && i.architect.Replied?
    && i.architect.value.question == b.results.decision.value.question && i.architect.value.status == status
  }

  /** A decision is asked about, put up for approval or prepared, according to the answer. */
  lemma ArchitectingOutcomes(d: Doc, g: Git, i: StepInput)
    requires Given(d, g, i, Architecting) && d.body.results.decision.Some?
    requires i.architect.Replied? ==> ValidArchitect(i.architect.value)
    ensures var x, b := Dispatch(d, g, i), d.body;
      var question := b.results.decision.value.question;
      && (i.architect.AgentFailed? ==> AgentFails(x, Architecting, i.architect.kind, i.architect.message) && x.body == b)
      && (i.architect.Replied? && i.architect.value.question != question ==> FailsWith(x, Architecting, ContractKind) && x.body == b)
      && (Answered(b, i, NeedsInput) ==>
            if b.counters.architectRetries >= b.options.maxArchitectRetries then GivesUp(x, TooManyRetries)
            else
              && Goes(x, AwaitingInput) && x.body.question.Some?
              && x.body.question.value.kind.ArchitectInput? && x.body.question.value.answer.None?
              && x.body.question.value.context == AboutQuestion(question)
              && x.body.question.value.message == Reported(i.architect.value.inputRequest.value)
              && x.body.counters == b.counters.(architectRetries := b.counters.architectRetries + 1))
      && (Answered(b, i, Decided) && b.options.requireApproval ==>
            && x.raise.InputRequired? && x.phase.AwaitingInput? && x.body.question.Some?
            && x.body.question.value.kind.DecisionApproval? && x.body.question.value.answer.None?
            && x.body.question.value.context == AboutAdr(i.architect.value.adr.value.title, i.architect.value.adr.value.decision))
      && (Answered(b, i, NeedsInput) || Answered(b, i, Decided) ==> x.body.results.architect == Some(i.architect.value))
  {
  }

  /** What it takes for a decision to be prepared, and what is then fixed. */
  lemma PreparationOutcomes(b: Body, p: Phase, g: Git, i: StepInput)
    requires b.results.decision.Some? && b.results.architect.Some? && b.results.architect.value.adr.Some?
    ensures var x := PrepareRecordDecision(b, p, g, i);
      var path, adr := OrEmpty(b.task.path), b.results.architect.value.adr.value;
      var names := if path in g.trees then g.trees[path].adrs.Keys else {};
      && (Goes(x, RecordingDecision) <==> i.adrFault.None? && NextAdrNumber(names) <= 9999)
      && (x.raise.NoRaise? ==>
            && x.body.intents.adrPath.Some? && x.body.intents.adrPath.value.worktree == path
            && IsAdrName(x.body.intents.adrPath.value.name)
            && x.body.intents.adrPath.value.name !in names
            && NumberOf(x.body.intents.adrPath.value.name) == NextAdrNumber(names)
            && x.body.intents.adrHash == Some(Rendered(adr))
            && x.body.question.None?)
      && (!x.raise.NoRaise? ==> FailsWith(x, p, DecisionKind) && x.body == b)
  {
    var path, adr := OrEmpty(b.task.path), b.results.architect.value.adr.value;
    var names := if path in g.trees then g.trees[path].adrs.Keys else {};
    GeneratedNameIsFree(names, adr.title);
    if NextAdrNumber(names) <= 9999 {
      NumberOfAdrName(NextAdrNumber(names), adr.title);
    }
  }

  /** Without approval a decision is prepared at once, with the architect's own ADR. */
  lemma UnapprovedDecisionIsPrepared(d: Doc, g: Git, i: StepInput)
    requires Given(d, g, i, Architecting) && Answered(d.body, i, Decided) && !d.body.options.requireApproval
    requires ValidArchitect(i.architect.value)
    ensures var x := Dispatch(d, g, i);
      var path := OrEmpty(d.body.task.path);
      var names := if path in x.git.trees then x.git.trees[path].adrs.Keys else {};
      && (Goes(x, RecordingDecision) <==> i.adrFault.None? && NextAdrNumber(names) <= 9999)
      && (x.raise.NoRaise? ==> x.body.intents.adrHash == Some(Rendered(i.architect.value.adr.value)))
      && (!x.raise.NoRaise? ==> FailsWith(x, Architecting, DecisionKind))
      && x.body.results.architect == Some(i.architect.value)
  {
    var b := d.body.(results := d.body.results.(architect := Some(i.architect.value)));
    PreparationOutcomes(b, Architecting, WorktreeEdit(d.body.task, g, i.edit), i);
  }

  // -------------------------------------------------------- recording an ADR

  /** The ADR can be written, or was written before. */
  predicate CanWrite(g: Git, path: string, adr: Adr, target: AdrPath, expected: FileText) {
    && expected == Rendered(adr) && target.worktree == path && IsAdrName(target.name)
    && path in g.trees
    && (target.name in g.trees[path].adrs ==> g.trees[path].adrs[target.name] == Rendered(adr))
  }

  /** A recorded decision is in its file, word for word, and its raiser goes on. */
  lemma RecordingOutcomes(d: Doc, g: Git, i: StepInput)
    requires Given(d, g, i, RecordingDecision)
    requires d.body.results.decision.Some? && d.body.results.architect.Some? && d.body.results.architect.value.adr.Some?
    requires d.body.intents.adrPath.Some? && d.body.intents.adrHash.Some?
    ensures var x, b := Dispatch(d, g, i), d.body;
      var path, adr, target := OrEmpty(b.task.path), b.results.architect.value.adr.value, b.intents.adrPath.value;
      && (x.raise.NoRaise? <==> i.adrFault.None? && CanWrite(g, path, adr, target, b.intents.adrHash.value))
      && (x.raise.NoRaise? ==>
            && x.phase == (match b.results.decision.value.origin case FromPlanner => Building case FromAuditor => Planning)
            && path in x.git.trees && x.git.trees[path].adrs == g.trees[path].adrs[target.name := Rendered(adr)]
            && x.git == g.(trees := g.trees[path := x.git.trees[path]])
            && x.git.trees[path].branch == g.trees[path].branch
            && multiset(x.git.trees[path].status)
               == multiset(g.trees[path].status)
                  + (if target.name in g.trees[path].adrs then multiset{} else multiset{UntrackedAdr(target.name)})
            && x.body.results.decision.None? && x.body.intents.adrPath.None? && x.body.intents.adrHash.None?
            && x.body.counters == b.counters.(architectRetries := 0))
      && (!x.raise.NoRaise? ==> FailsWith(x, RecordingDecision, DecisionKind) && x.body == b && x.git == g)
  {
    var b := d.body;
    var path, adr, target := OrEmpty(b.task.path), b.results.architect.value.adr.value, b.intents.adrPath.value;
    if path in g.trees {
      assert g.trees[path := g.trees[path]] == g.trees;
      if target.name in g.trees[path].adrs && g.trees[path].adrs[target.name] == Rendered(adr) {
        assert g.trees[path].adrs[target.name := Rendered(adr)] == g.trees[path].adrs;
      }
    }
  }

  // ---------------------------------------------------------------- building

  /** A reported hash names exactly one commit, whose full name it abbreviates. */
  predicate Names(cs: map<string, Commit>, reported: string, head: string) {
    head in cs && CommitIdsMatch(reported, head) && forall o :: o in cs && CommitIdsMatch(reported, o) ==> o == head
  }

  lemma ResolvedExactly(cs: map<string, Commit>, reported: string, head: string)
    ensures Resolve(cs, reported) == Some(head) <==> Names(cs, reported, head)
  {
  }

  /** What `verify_builder_commit` demands of worktree and report. */
  predicate Verifiable(g: Git, path: string, branch: string, base: string, reported: string, head: string) {
    && path in g.trees && g.trees[path].branch == branch && branch in g.branches && g.branches[branch] == head
    && g.trees[path].status == []
    && 7 <= |reported| <= 40 && (forall k :: 0 <= k < |reported| ==> IsHex(reported[k]))
    && Names(g.commits, reported, head)
    && !Reaches(g.commits, base, head)
  }

  /** It returns a head exactly if the worktree is clean, on its branch and at that head, the report
      is a hash that names it alone, and it is new since the base. */
  lemma VerifiedExactly(g: Git, path: string, branch: string, base: string, reported: string, head: string)
    ensures VerifyBuilderCommit(g, path, branch, base, reported) == Ok(head) <==> Verifiable(g, path, branch, base, reported, head)
  {
    ResolvedExactly(g.commits, reported, head);
  }

  predicate Reports(b: Body, i: StepInput) {
    && b.results.planner.Some? && i.builder.Replied?
    && i.builder.value.taskId == OrEmpty(b.results.planner.value.taskId) && Strip(i.builder.value.objective) != ""
  }

  /** The worktree as the builder left it can be verified at its HEAD. */
  ghost predicate LeavesVerifiable(d: Doc, h: Git, i: StepInput)
    requires i.builder.Replied?
  {
    exists head :: Verifiable(h, OrEmpty(d.body.task.path), OrEmpty(d.body.task.branch), OrEmpty(d.body.task.base),
                              OrEmpty(i.builder.value.commit), head)
  }

  lemma VerifiedIfAny(d: Doc, h: Git, i: StepInput)
    requires i.builder.Replied? && HasWorktree(d.body.task)
    ensures var t, commit := d.body.task, OrEmpty(i.builder.value.commit);
      var v := VerifyBuilderCommit(h, t.path.value, t.branch.value, OrEmpty(t.base), commit);
      && (v.Ok? <==> LeavesVerifiable(d, h, i))
      && (v.Ok? ==> Verifiable(h, t.path.value, t.branch.value, OrEmpty(t.base), commit, v.value))
  {
    var t, commit := d.body.task, OrEmpty(i.builder.value.commit);
    var v := VerifyBuilderCommit(h, t.path.value, t.branch.value, OrEmpty(t.base), commit);
    if v.Ok? {
      VerifiedExactly(h, t.path.value, t.branch.value, OrEmpty(t.base), commit, v.value);
      assert Verifiable(h, OrEmpty(t.path), OrEmpty(t.branch), OrEmpty(t.base), commit, v.value);
    }
    if LeavesVerifiable(d, h, i) {
      var head :| Verifiable(h, OrEmpty(t.path), OrEmpty(t.branch), OrEmpty(t.base), commit, head);
      VerifiedExactly(h, t.path.value, t.branch.value, OrEmpty(t.base), commit, head);
    }
  }

  /** A build leads on exactly if it is reported COMPLETE and leaves a clean worktree with the new,
      reported commit at its HEAD; blocked and incomplete builds ask the operator. */
  lemma BuildingOutcomes(d: Doc, g: Git, i: StepInput)
    requires Given(d, g, i, Building) && d.body.results.planner.Some? && HasWorktree(d.body.task)
    requires i.builder.Replied? ==> ValidBuilder(i.builder.value)
    ensures var x, b := Dispatch(d, g, i), d.body;
      && (x.raise.NoRaise? && (x.phase.Verifying? || x.phase.Auditing?) <==>
            Reports(b, i) && i.builder.value.status.Complete? && i.gitBefore.None? && LeavesVerifiable(d, x.git, i))
      && (x.raise.NoRaise? && Reports(b, i) && i.builder.value.status.Complete? ==>
            && x.phase == (if b.options.verifyCommands == [] then Auditing else Verifying)
            && x.body.lastTaskHead.Some?
            && Verifiable(x.git, b.task.path.value, b.task.branch.value, OrEmpty(b.task.base),
                          OrEmpty(i.builder.value.commit), x.body.lastTaskHead.value)
            && x.body.question.None? && x.body.counters == b.counters.(guidance := 0))
      && (Reports(b, i) ==> x.body.results.builder == Some(i.builder.value))
      && (Reports(b, i) && i.builder.value.status.Complete? && !x.raise.NoRaise? ==> FailsWith(x, Building, GitKind))
      && (Reports(b, i) && !i.builder.value.status.Complete? ==>
            && Goes(x, AwaitingInput) && x.body.counters == b.counters.(guidance := b.counters.guidance + 1)
            && x.body.question.Some? && x.body.question.value.answer.None?
            && x.body.question.value.context == AboutStatus(i.builder.value.status)
            && x.body.question.value.kind
               == (if b.counters.guidance < b.options.maxGuidanceAttempts then BuilderGuidance else BuilderEscalation))
      && (i.builder.Replied? && !Reports(b, i) ==> FailsWith(x, Building, ContractKind) && x.body == b)
      && (i.builder.AgentFailed? ==> AgentFails(x, Building, i.builder.kind, i.builder.message) && x.body == b)
  {
    if i.builder.Replied? {
      VerifiedIfAny(d, WorktreeEdit(d.body.task, g, i.edit), i);
    }
  }

  // --------------------------------------------------------------- verifying

  /** Auditing is handed what the configured commands really did. */
  lemma VerifyingOutcomes(d: Doc, g: Git, i: StepInput)
    requires Given(d, g, i, Verifying) && HasWorktree(d.body.task)
    ensures var x := Dispatch(d, g, i);
      && (Goes(x, Auditing) <==> i.gitBefore.None?)
      && (i.gitBefore.None? ==>
            && x.body.results.verification.Some? && Tells(x.body.results.verification.value, d.body.options.verifyCommands, i.runs)
            && x.body == d.body.(results := d.body.results.(verification := x.body.results.verification)))
      && (i.gitBefore.Some? ==> FailsWith(x, Verifying, GitKind) && x.body == d.body && x.git == g)
  {
    SummaryTells(d.body.options.verifyCommands, i.runs);
  }

  // ---------------------------------------------------------------- auditing

  predicate Judged(b: Body, i: StepInput, verdict: Disposition) {
    && b.results.planner.Some? && i.gitBefore.None? && i.auditor.Replied?
    && i.auditor.value.taskId == OrEmpty(b.results.planner.value.taskId) && Strip(i.auditor.value.objective) != ""
    && i.auditor.value.disposition == verdict
  }

  /** ACCEPT fixes what is merged onto what, REVISE builds again and REPLAN plans again, each as
      often as its limit allows. */
  lemma AuditingOutcomes(d: Doc, g: Git, i: StepInput)
    requires Given(d, g, i, Auditing) && d.body.results.planner.Some? && HasWorktree(d.body.task)
    ensures var x, b := Dispatch(d, g, i), d.body;
      && (Goes(x, Merging) <==>
            Judged(b, i, Accept) && i.gitAfter.None? && HeadAt(x.git, b.task.path.value).Some?)
      && (Goes(x, Merging) ==>
            && x.body.intents.mergePre == Some(x.git.branches[x.git.mainBranch])
            && x.body.intents.mergeTask == HeadAt(x.git, b.task.path.value))
      && (Judged(b, i, Accept) && !x.raise.NoRaise? ==> FailsWith(x, Auditing, GitKind))
      && (Judged(b, i, Revise) ==>
            if b.counters.revisions >= b.options.maxRevisions then GivesUp(x, TooManyRevisions)
            else Goes(x, Building) && x.body.results.verification.None?
                 && x.body.results.builder == b.results.builder
                 && x.body.counters == b.counters.(revisions := b.counters.revisions + 1))
      && (Judged(b, i, Replan) ==>
            if b.counters.replans >= b.options.maxReplans then GivesUp(x, TooManyReplans)
            else
              && x.raise.NoRaise? && x.body.results.builder.None? && x.body.results.verification.None?
              && x.body.counters == b.counters.(replans := b.counters.replans + 1)
              && (if i.auditor.value.decisionRequired
                  then x.phase.Architecting?
                       && x.body.results.decision == Some(DecisionRequest(FromAuditor, OrEmpty(i.auditor.value.decisionQuestion),
                                                                          OrEmpty(i.auditor.value.decisionRationale)))
                  else x.phase.Planning? && x.body.results.decision == b.results.decision))
      && (Judged(b, i, Accept) || Judged(b, i, Revise) || Judged(b, i, Replan) ==> x.body.results.auditor == Some(i.auditor.value))
      && (i.gitBefore.Some? ==> FailsWith(x, Auditing, GitKind) && x.body == b && x.git == g)
      && (i.gitBefore.None? && i.auditor.AgentFailed? ==> AgentFails(x, Auditing, i.auditor.kind, i.auditor.message) && x.body == b)
      && (i.gitBefore.None? && i.auditor.Replied? && !Judged(b, i, i.auditor.value.disposition) ==>
            FailsWith(x, Auditing, ContractKind) && x.body == b)
  {
  }

  // --------------------------------------------------------- pending answers

  /** The answer as it is read. */
  function Word(answer: string): string {
    Lower(Strip(answer))
  }

  predicate SaysYes(answer: string) {
    Word(answer) in ["y", "yes", "approve"]
  }

  predicate Asked(d: Doc, i: StepInput, kind: QuestionKind) {
    d.body.question.Some? && d.body.question.value.kind == kind && i.answer.Some?
  }

  /** A decision is recorded only on a yes; anything else is taken up with the architect. */
  lemma ApprovalOutcomes(d: Doc, g: Git, i: StepInput)
    requires Given(d, g, i, AwaitingInput) && Asked(d, i, DecisionApproval)
    requires d.body.results.decision.Some? && d.body.results.architect.Some? && d.body.results.architect.value.adr.Some?
    ensures var x, b := Dispatch(d, g, i), d.body;
      var path := OrEmpty(b.task.path);
      var names := if path in g.trees then g.trees[path].adrs.Keys else {};
      && (Goes(x, RecordingDecision) <==> SaysYes(i.answer.value) && i.adrFault.None? && NextAdrNumber(names) <= 9999)
      && (Goes(x, RecordingDecision) ==>
            x.body.intents.adrHash == Some(Rendered(b.results.architect.value.adr.value)) && x.body.question.None?)
      && (SaysYes(i.answer.value) && !x.raise.NoRaise? ==> FailsWith(x, AwaitingInput, DecisionKind) && x.body.intents == b.intents)
      && (!SaysYes(i.answer.value) ==>
            && Goes(x, AwaitingInput) && x.body == b.(question := x.body.question)
            && x.body.question.Some? && x.body.question.value.kind.ArchitectInput? && x.body.question.value.answer.None?
            && x.body.question.value.context == AboutQuestion(b.results.decision.value.question))
      && x.git == g
  {
    var q := d.body.question.value;
    PreparationOutcomes(d.body.(question := Some(q.(answer := i.answer))), AwaitingInput, g, i);
  }

  /** Guidance goes to the builder, or the task is planned again; an escalation takes only its two words. */
  lemma GuidanceOutcomes(d: Doc, g: Git, i: StepInput)
    requires Given(d, g, i, AwaitingInput) && (Asked(d, i, BuilderGuidance) || Asked(d, i, BuilderEscalation))
    ensures var x, b := Dispatch(d, g, i), d.body;
      var word, q := Word(i.answer.value), b.question.value;
      && (word == "replan" ==>
            if b.counters.replans >= b.options.maxReplans then GivesUp(x, TooManyReplans)
            else
              && Goes(x, Planning) && x.body.question.None? && x.body.results == b.results.(builder := None, verification := None)
              && x.body.counters == b.counters.(replans := b.counters.replans + 1))
      && (word != "replan" && q.kind.BuilderGuidance? ==>
            Goes(x, Building) && x.body == b.(question := Some(q.(answer := i.answer))))
      && (q.kind.BuilderEscalation? && word == "abandon" ==> GivesUp(x, Abandoned) && x.body.question.None?)
      && (q.kind.BuilderEscalation? && word != "replan" && word != "abandon" ==>
            && Goes(x, AwaitingInput) && x.body == b.(question := x.body.question) && x.body.question.Some?
            && x.body.question.value.kind.BuilderEscalation? && x.body.question.value.answer.None?
            && x.body.question.value.context == q.context)
      && x.git == g
  {
  }

  lemma InputOutcomes(d: Doc, g: Git, i: StepInput)
    requires Given(d, g, i, AwaitingInput)
    ensures var x := Dispatch(d, g, i);
      && (i.answer.None? ==> Goes(x, AwaitingInput) && x.body == d.body && x.git == g)
      && (Asked(d, i, ArchitectInput) ==>
            Goes(x, Architecting) && x.body == d.body.(question := Some(d.body.question.value.(answer := i.answer))) && x.git == g)
      && (i.answer.Some? && d.body.question.None? ==> x.raise.Escapes?)
  {
  }

  // ------------------------------------------------------- merge and cleanup

  /** A merge whose second parent is the task head. */
  predicate IsTaskMerge(cs: map<string, Commit>, c: string, task: string) {
    c in cs && |cs[c].parents| >= 2 && cs[c].parents[1] == task
  }

  /** Nothing stands between the task and an attempt to merge it. */
  predicate CanMerge(g: Git, pre: string, task: string)
    requires HasMain(g)
  {
    && pre in g.commits && task in g.commits && Reaches(g.commits, g.branches[g.mainBranch], pre)
    && (forall c :: c in FirstParents(g.commits, g.branches[g.mainBranch]) && !Reaches(g.commits, pre, c) ==>
          !IsTaskMerge(g.commits, c, task))
    && g.mainStatus == [] && !Reaches(g.commits, g.branches[g.mainBranch], task)
  }

  /** The integration HEAD moves exactly if the recorded head is an ancestor of it, nothing has been
      merged yet, the worktree is clean, the task is not contained already, and `git merge` works. */
  lemma MergeMovesExactly(g: Git, pre: string, task: string, choice: MergeChoice)
    requires WellFormed(g) && (choice.Merged? ==> FreshCommit(g, choice.commit))
    ensures var (h, r) := ReconcileOrMerge(g, pre, task, choice);
      && HasMain(h)
      && (MainHead(h) != MainHead(g) <==> CanMerge(g, pre, task) && choice.Merged?)
      && (r.Ok? ==> IsTaskMerge(h.commits, r.value, task) && Reaches(h.commits, MainHead(h), pre))
      && (r.Conflicts? <==> CanMerge(g, pre, task) && choice.Conflicted?)
      && (MainHead(h) == MainHead(g) ==>
            h == if CanMerge(g, pre, task) && choice.NotRestored? then g.(mainStatus := choice.status) else g)
  {
    var head := MainHead(g);
    assert pre in g.commits && head == pre ==> Reaches(g.commits, head, pre);
    ListedExactly(g, pre, task);
    MergeShape(g, pre, task, choice);
    if choice.Merged? && task in g.commits && pre in g.commits && Reaches(g.commits, head, pre) {
      NewHeadReaches(g, pre, task, choice.commit);
    }
  }

  /** What is listed since the recorded head has a merge of the task exactly if one is found. */
  lemma ListedExactly(g: Git, pre: string, task: string)
    requires HasMain(g)
    ensures var listed := RevList(g.commits, pre, MainHead(g));
      FirstMergeOf(g.commits, listed, task).None? <==>
        forall c :: c in FirstParents(g.commits, MainHead(g)) && !Reaches(g.commits, pre, c) ==> !IsTaskMerge(g.commits, c, task)
  {
    var listed := RevList(g.commits, pre, MainHead(g));
    var found := FirstMergeOf(g.commits, listed, task);
    if found.Some? {
      assert found.value in FirstParents(g.commits, MainHead(g)) && IsTaskMerge(g.commits, found.value, task);
    } else {
      forall c | c in FirstParents(g.commits, MainHead(g)) && !Reaches(g.commits, pre, c)
        ensures !IsTaskMerge(g.commits, c, task)
      {
        assert c in listed;
      }
    }
  }

  lemma NewHeadReaches(g: Git, pre: string, task: string, c: string)
    requires WellFormed(g) && FreshCommit(g, c) && task in g.commits && Reaches(g.commits, MainHead(g), pre)
    ensures var h := MergeInto(g, c, task);
      WellFormed(h) && MainHead(h) == c && Reaches(h.commits, c, pre) && IsMergeOf(h.commits, c, task)
  {
    var h, head := MergeInto(g, c, task), MainHead(g);
    MergeIntoKeeps(g, c, task);
    assert h.commits[c].parents[0] == head;
    assert head in h.commits[c].parents && Reaches(h.commits, head, head);
    ReachesStays(g.commits, h.commits, head, pre);
    ReachesTransitive(h.commits, c, head, pre);
  }

  lemma MergingOutcomes(d: Doc, g: Git, i: StepInput)
    requires Given(d, g, i, Merging) && HasWorktree(d.body.task) && d.body.intents.mergePre.Some? && d.body.intents.mergeTask.Some?
    ensures var x, b := Dispatch(d, g, i), d.body;
      var r := ReconcileOrMerge(g, b.intents.mergePre.value, b.intents.mergeTask.value, i.merge);
      var attempted := i.gitBefore.None? && HeadAt(g, b.task.path.value) == b.intents.mergeTask;
      && x.git == (if attempted then r.0 else g)
      && (Goes(x, CleanupWorktree) <==> attempted && r.1.Ok? && i.gitAfter.None?)
      && (Goes(x, CleanupWorktree) ==> x.body == b.(intents := b.intents.(mergeCommit := Some(r.1.value))))
      && (attempted && r.1.Conflicts? ==> FailsWith(x, Merging, MergeConflictKind))
      && (!Goes(x, CleanupWorktree) && !(attempted && r.1.Conflicts?) ==> FailsWith(x, Merging, GitKind))
      && (!x.raise.NoRaise? ==> x.body == b)
  {
  }

  /** The recorded merge is on the integration branch, of exactly the reviewed head, and the task
      branch has not moved since. */
  predicate MergeStands(b: Body, g: Git)
    requires HasMain(g) && b.task.branch.Some?
  {
    && b.intents.mergeCommit.Some? && b.intents.mergeTask.Some?
    && var merge := b.intents.mergeCommit.value;
    && merge in g.commits && Reaches(g.commits, MainHead(g), merge)
    && |g.commits[merge].parents| == 2 && g.commits[merge].parents[1] == b.intents.mergeTask.value
    && (b.task.branch.value in g.branches ==> g.branches[b.task.branch.value] == b.intents.mergeTask.value)
  }

  lemma SafeExactly(b: Body, g: Git)
    requires HasMain(g) && HasWorktree(b.task)
    ensures CleanupSafety(b, g).NoRaise? <==> MergeStands(b, g)
    ensures !CleanupSafety(b, g).NoRaise? ==>
              CleanupSafety(b, g) == LoopFailure(NoMergeIntent) || (CleanupSafety(b, g).Operational? && CleanupSafety(b, g).fault.kind.GitKind?)
  {
  }

  /** The worktree goes exactly if the merge stands and it is clean and on its branch, or it is gone. */
  lemma CleanupWorktreeOutcomes(d: Doc, g: Git, i: StepInput)
    requires Given(d, g, i, CleanupWorktree) && HasWorktree(d.body.task)
    ensures var x, b, path := Dispatch(d, g, i), d.body, d.body.task.path.value;
      && (Goes(x, CleanupBranch) <==>
            MergeStands(b, g) && i.gitBefore.None?
            && (path in g.trees ==> g.trees[path].branch == b.task.branch.value && g.trees[path].status == []))
      && x.body == b
      && x.git == g.(trees := x.git.trees)
      && x.git.trees == (if Goes(x, CleanupBranch) then g.trees - {path} else g.trees)
      && (!Goes(x, CleanupBranch) ==> FailsWith(x, CleanupWorktree, GitKind) || GivesUp(x, NoMergeIntent))
  {
    var path := d.body.task.path.value;
    SafeExactly(d.body, g);
    assert path !in g.trees ==> g.trees - {path} == g.trees;
  }

  /** The branch goes and the task is closed exactly if the merge stands and the branch is integrated
      and checked out nowhere, or is gone. Exactly then one more task is accepted. */
  lemma CleanupBranchOutcomes(d: Doc, g: Git, i: StepInput)
    requires Given(d, g, i, CleanupBranch) && HasWorktree(d.body.task) && WellFormed(g)
    requires d.body.results.planner.Some? && var r := d.body.results.planner.value; r.taskId.Some? && r.objective.Some? && r.rationale.Some?
    ensures var x, b, branch := Dispatch(d, g, i), d.body, d.body.task.branch.value;
      var r := b.results.planner.value;
      && (Goes(x, Planning) <==>
            MergeStands(b, g) && i.gitBefore.None?
            && (branch in g.branches ==>
                  branch != g.mainBranch && Reaches(g.commits, MainHead(g), g.branches[branch])
                  && forall t :: t in g.trees ==> g.trees[t].branch != branch))
      && (Goes(x, Planning) ==>
            && x.git.branches == g.branches - {branch} && x.git == g.(branches := x.git.branches)
            && x.body.counters == Counters(b.counters.accepted + 1, 0, 0, 0, 0)
            && NoTask(x.body.task) && x.body.lastTaskHead.None?
            && x.body.results == Results(None, None, None, None, None, None,
                                         Some(CompletedTask(r.taskId.value, r.objective.value, r.rationale.value)))
            && x.body.intents.mergePre.None? && x.body.intents.mergeTask.None? && x.body.intents.mergeCommit.None?
            && x.body.question == b.question && x.body.options == b.options && x.body.header == b.header)
      && (!Goes(x, Planning) ==>
            x.git == g && x.body == b && (FailsWith(x, CleanupBranch, GitKind) || GivesUp(x, NoMergeIntent)))
  {
    var branch := d.body.task.branch.value;
    SafeExactly(d.body, g);
    assert branch !in g.branches ==> g.branches - {branch} == g.branches;
  }

  // ------------------------------------------------------------------ retry

  /** A retry goes back to the phase recorded, with nothing else changed. */
  lemma RetryOutcomes(d: Doc, g: Git, i: StepInput)
    requires Given(d, g, i, OperationalFailure)
    ensures var x := Dispatch(d, g, i);
      var open := d.lastError.Some? && d.lastError.value.retryable && d.lastError.value.retryPhase.Some?;
      && (x.raise.NoRaise? <==> open) && (open ==> x.phase == d.lastError.value.retryPhase.value)
      && x.body == d.body && x.git == g
  {
  }

  // ------------------------------------------------------- what is missing

  /** A state without what its phase needs, which no readable document is in, ends the run with the
      reason, in the order in which the phase looks. */
  lemma MissingPartsGiveUp(d: Doc, g: Git, i: StepInput)
    requires Given(d, g, i, d.phase)
    ensures var x, p, b, r, n := Dispatch(d, g, i), d.phase, d.body, d.body.results, d.body.intents;
      && (p.CreatingWorktree? ==>
            if n.treePath.None? || n.treeBranch.None? || n.treeBase.None? then GivesUp(x, NoWorktreeIntent)
            else if r.planner.None? then GivesUp(x, NoPlannerResult)
            else OrEmpty(r.planner.value.taskId) == "" ==> GivesUp(x, NoTaskId))
      && (p.Architecting? && r.decision.None? ==> GivesUp(x, NoDecision))
      && (p.RecordingDecision? ==>
            if r.architect.None? then GivesUp(x, NoArchitectResult)
            else if r.decision.None? then GivesUp(x, NoDecision)
            else if n.adrPath.None? || n.adrHash.None? then GivesUp(x, NoAdrIntent)
            else r.architect.value.adr.None? ==> GivesUp(x, NoAdr))
      && (p.Building? || p.Auditing? ==>
            if r.planner.None? then GivesUp(x, NoPlannerResult) else !HasWorktree(b.task) ==> GivesUp(x, NoWorktree))
      && (p.Building? && HasWorktree(b.task) && Reports(b, i) && i.builder.value.status.Complete?
          && OrEmpty(i.builder.value.commit) == "" ==>
            GivesUp(x, NoCommitHash))
      && (p.Verifying? && !HasWorktree(b.task) ==> GivesUp(x, NoWorktree))
      && (p.Merging? ==>
            if !HasWorktree(b.task) then GivesUp(x, NoWorktree)
            else n.mergePre.None? || n.mergeTask.None? ==> GivesUp(x, NoMergeIntent))
      && (p.CleanupWorktree? || p.CleanupBranch? ==>
            if !HasWorktree(b.task) then GivesUp(x, NoWorktree)
            else n.mergeCommit.None? || n.mergeTask.None? ==> GivesUp(x, NoMergeIntent))
      && (p.OperationalFailure? ==>
            if d.lastError.None? then GivesUp(x, NoErrorRecord)
            else if !d.lastError.value.retryable then GivesUp(x, NotRetryable)
            else d.lastError.value.retryPhase.None? ==> GivesUp(x, NoRetryPhase))
  {
  }

  /** The same of preparing a decision. */
  lemma MissingDecisionGivesUp(b: Body, p: Phase, g: Git, i: StepInput)
    ensures var x := PrepareRecordDecision(b, p, g, i);
      if b.results.architect.None? then GivesUp(x, NoArchitectResult)
      else if b.results.decision.None? then GivesUp(x, NoDecision)
      else b.results.architect.value.adr.None? ==> GivesUp(x, NoAdr)
  {
  }

  // ------------------------------------------------------ giving up, escaping

  lemma AnswerNeverFails(d: Doc, g: Git, i: StepInput)
    requires AtRest(d, g) && Given(d, g, i, AwaitingInput)
    ensures !Dispatch(d, g, i).raise.Escapes?
    ensures Dispatch(d, g, i).raise.LoopFailure? ==> Dispatch(d, g, i).raise.reason in {TooManyReplans, Abandoned}
  {
    if i.answer.None? {
      InputOutcomes(d, g, i);
    } else {
      match d.body.question.value.kind
      case ArchitectInput => InputOutcomes(d, g, i);
      case DecisionApproval => ApprovalOutcomes(d, g, i);
      case _ => GuidanceOutcomes(d, g, i);
    }
  }

  /** The agent at work failed in a way the supervisor does not know. */
  predicate AgentBreaks(p: Phase, i: StepInput) {
    match p
    case Planning => i.planner.AgentFailed? && i.planner.kind.OtherAgentError?
    case Architecting => i.architect.AgentFailed? && i.architect.kind.OtherAgentError?
    case Building => i.builder.AgentFailed? && i.builder.kind.OtherAgentError?
    case Auditing => i.auditor.AgentFailed? && i.auditor.kind.OtherAgentError?
    case _ => false
  }

  /** From a state at rest a run gives up for five reasons only, and nothing gets out of a dispatch but
      an agent's unknown failure. */
  lemma EndsOnlyFor(d: Doc, g: Git, i: StepInput)
    requires AtRest(d, g) && InputFits(d.body, g, i) && !IsTerminal(d.phase)
    ensures var raise := Dispatch(d, g, i).raise;
      && (raise.LoopFailure? ==> raise.reason in {TaskStillActive, TooManyRetries, TooManyRevisions, TooManyReplans, Abandoned})
      && (raise.Escapes? ==> AgentBreaks(d.phase, i))
  {
    match d.phase
    case Planning => PlanningEndsOnlyFor(d, g, i);
    case CreatingWorktree => CreatingOutcomes(d, g, i);
    case Architecting => ArchitectingEndsOnlyFor(d, g, i);
    case RecordingDecision => RecordingOutcomes(d, g, i);
    case Building => BuildingOutcomes(d, g, i);
    case Verifying => VerifyingOutcomes(d, g, i);
    case Auditing => AuditingOutcomes(d, g, i);
    case AwaitingInput => AnswerNeverFails(d, g, i);
    case OperationalFailure => RetryOutcomes(d, g, i);
    case _ => LateNeverEnds(d, g, i);
  }

  lemma LateNeverEnds(d: Doc, g: Git, i: StepInput)
    requires AtRest(d, g) && InputFits(d.body, g, i) && IsMergeOrCleanup(d.phase)
    ensures var raise := Dispatch(d, g, i).raise; !raise.LoopFailure? && !raise.Escapes?
  {
    match d.phase
    case Merging => MergingOutcomes(d, g, i);
    case CleanupWorktree => CleanupWorktreeOutcomes(d, g, i);
    case CleanupBranch => CleanupBranchOutcomes(d, g, i);
  }

  lemma PlanningEndsOnlyFor(d: Doc, g: Git, i: StepInput)
    requires Given(d, g, i, Planning)
    ensures var raise := Dispatch(d, g, i).raise;
      (raise.LoopFailure? ==> raise.reason == TaskStillActive) && (raise.Escapes? ==> AgentBreaks(Planning, i))
  {
    PlanningOutcomes(d, g, i);
    if Planned(d.body, i, Ready) && d.body.task.path.None? {
      ReadyPlanIntendsWorktree(d, g, i);
    }
  }

  lemma ArchitectingEndsOnlyFor(d: Doc, g: Git, i: StepInput)
    requires Given(d, g, i, Architecting) && d.body.results.decision.Some?
    requires i.architect.Replied? ==> ValidArchitect(i.architect.value)
    ensures var raise := Dispatch(d, g, i).raise;
      (raise.LoopFailure? ==> raise.reason == TooManyRetries) && (raise.Escapes? ==> AgentBreaks(Architecting, i))
  {
    ArchitectingOutcomes(d, g, i);
    if Answered(d.body, i, Decided) && !d.body.options.requireApproval {
      UnapprovedDecisionIsPrepared(d, g, i);
    }
  }

  // ------------------------------------------------------------ the outcome

  /** A failure the operator has to look at first. */
  predicate NeedsOperator(kind: ErrorKind, failedPhase: Phase) {
    match kind
    case MergeConflictKind => true
    case DecisionKind => true
    case GitKind => failedPhase.CleanupWorktree? || failedPhase.CreatingWorktree?
    case _ => false
  }

  /** What is recorded of a failure, and when `run()` retries it by itself. */
  lemma FailureOutcomes(d: Doc, g: Git, f: Fault, failedPhase: Phase, before: Phase, choice: SaveChoice)
    requires HasMain(g)
    ensures var s := FailOperationally(d, g, f, failedPhase, before, choice);
      && s.mem.phase.OperationalFailure? && s.mem.body == d.body && s.mem.operationalRetries == d.operationalRetries
      && s.mem.lastError.Some? && s.mem.lastError.value.kind == f.kind && s.mem.lastError.value.message == f.message
      && s.mem.lastError.value.failedPhase == failedPhase
      && s.mem.lastError.value.retryPhase == Some(if f.kind.MergeConflictKind? then Merging else failedPhase)
      && (MayRetry(s.mem) <==> !NeedsOperator(f.kind, failedPhase) && d.operationalRetries < d.body.options.maxOperationalRetries)
      && (s.result.Returned? <==> choice.SaveWorks? && Checkpoint(WithFailure(d, g, f, failedPhase), g).Some?)
      && (s.result.Returned? ==> s.result == Returned(OperationalFailureStatus, before, OperationalFailure, Some(f.message)))
      && (!s.result.Returned? ==>
            s.mem.checkpoints == if failedPhase.Building? && HeadAt(g, OrEmpty(d.body.task.path)).Some? && d.body.task.path.Some?
                                 then d.checkpoints.(taskHead := HeadAt(g, d.body.task.path.value),
                                                     taskStatus := Some(g.trees[d.body.task.path.value].status))
                                 else d.checkpoints)
  {
  }

  /** A document describes the repository: integration branch and task worktree as they are, except
      that cleanup of the branch keeps the task head it began with. */
  predicate Describes(e: Doc, g: Git, taskHead: Option<string>)
    requires HasMain(g)
  {
    var path, c := e.body.task.path, e.checkpoints;
    && c.mainHead == g.branches[g.mainBranch] && c.mainStatus == g.mainStatus
    && (if EffectivePhase(e).CleanupBranch? then c.taskHead == taskHead && c.taskStatus.None?
        else if path.None? then c.taskHead.None? && c.taskStatus.None?
        else path.value in g.trees && c.taskHead == HeadAt(g, path.value) && c.taskHead.Some?
             && c.taskStatus == Some(g.trees[path.value].status))
  }

  lemma FailureDescribes(d: Doc, g: Git, f: Fault, failedPhase: Phase, before: Phase, choice: SaveChoice)
    requires HasMain(g)
    ensures var s := FailOperationally(d, g, f, failedPhase, before, choice);
      s.disk.Some? ==> s.disk.value == s.mem && s.mem.body == d.body && Describes(s.mem, g, d.checkpoints.taskHead)
  {
  }

  lemma CheckpointDescribes(d: Doc, g: Git)
    requires HasMain(g) && Checkpoint(d, g).Some?
    ensures Checkpoint(d, g).value.body == d.body && Describes(Checkpoint(d, g).value, g, d.checkpoints.taskHead)
  {
  }

  lemma SuccessDescribes(d: Doc, g: Git, target: Phase, before: Phase, status: Status, i: StepInput)
    requires HasMain(g)
    ensures var s := SavedOrFailed(d, g, target, before, status, i);
      s.disk.Some? ==> s.disk.value == s.mem && s.mem.body == d.body && Describes(s.mem, g, d.checkpoints.taskHead)
  {
    match Save(d, g, i.save)
    case SavedAs(_) => CheckpointDescribes(d, g);
    case SaveFails(Some(f)) => FailureDescribes(d, g, f, target, before, i.failureSave);
    case SaveFails(None) =>
  }

  /** What is written is what is in memory, with the body the dispatch left, and describes the
      repository as it is. */
  lemma WrittenOutcomes(d: Doc, x: Dispatched, i: StepInput)
    requires HasMain(x.git) && Concluded(d, x, i).disk.Some?
    ensures var e := Concluded(d, x, i).disk.value;
      e == Concluded(d, x, i).mem && e.body == x.body && Describes(e, x.git, d.checkpoints.taskHead)
  {
    var e := InMemory(d, x);
    match x.raise
    case NoRaise =>
      var status := SuccessStatus(d.phase, x.phase, i);
      SuccessDescribes(if status.InputUnavailable? then e else ResetRetries(e, d.phase), x.git,
                       if IsTerminal(x.phase) then d.phase else x.phase, d.phase, status, i);
    case Operational(f) => FailureDescribes(e, x.git, f, d.phase, d.phase, i.failureSave);
    case _ =>
  }

  /** A step that succeeds starts the retries afresh, unless it is itself the retry or had no answer to
      go on with; and a retry that succeeds drops the error record. */
  lemma RetriesStartAfresh(d: Doc, x: Dispatched, i: StepInput)
    requires HasMain(x.git) && !IsTerminal(d.phase)
    ensures var e := Concluded(d, x, i).mem;
      var succeeds := x.raise.InputRequired? || (x.raise.NoRaise? && !(d.phase.AwaitingInput? && i.answer.None?));
      && e.operationalRetries == (if succeeds && !d.phase.OperationalFailure? then 0 else d.operationalRetries)
      && (x.raise.NoRaise? && !e.phase.OperationalFailure? ==>
            e.lastError == if d.phase.OperationalFailure? then None else d.lastError)
  {
  }

  /** What an outcome tells the caller, whatever the dispatch `x` came to. */
  lemma StatusOutcomes(d: Doc, x: Dispatched, i: StepInput)
    requires HasMain(x.git) && !IsTerminal(d.phase) && Concluded(d, x, i).result.Returned?
    requires x.raise.InputRequired? ==> x.phase.AwaitingInput? && !d.phase.AwaitingInput?
    ensures var r := Concluded(d, x, i).result;
      && r.phaseBefore == d.phase && r.phaseAfter == Concluded(d, x, i).mem.phase
      && (r.status.TerminalStatus? <==> x.raise.LoopFailure?)
      && (r.status.OperationalFailureStatus? <==>
            x.raise.Operational? || (x.raise.NoRaise? && (!i.save.SaveWorks? || Unreadable(d, x))))
      && (r.status.InputUnavailable? <==>
            x.raise.NoRaise? && i.save.SaveWorks? && !Unreadable(d, x) && d.phase.AwaitingInput? && i.answer.None?)
      && (r.status.InputRequiredStatus? ==> x.phase.AwaitingInput? && !d.phase.AwaitingInput?)
      && (r.status.Advanced? ==> x.raise.NoRaise? && (if d.phase.AwaitingInput? then i.answer.Some? else !x.phase.AwaitingInput?))
  {
  }

  /** How `run()` goes on: by itself from a failure that needs no repair, as often as the limit allows
      and with the attempt counted; otherwise as the outcome says. */
  lemma IterationOutcomes(d: Doc, g: Git, i: StepInput)
    requires HasMain(g) && |i.runs| == |d.body.options.verifyCommands|
    ensures IsTerminal(d.phase) ==> Iterate(d, g, i) == Stops(d, g, Finished)
    ensures !IsTerminal(d.phase) ==>
              var x, r := Dispatch(d, g, i), Iterate(d, g, i);
              var s := Concluded(d, x, i);
              match s.result
              case Escaped => r == Stops(s.mem, x.git, Crashed)
              case Returned(TerminalStatus, _, _, _) => r == Stops(s.mem, x.git, Finished)
              case Returned(InputUnavailable, _, _, _) => r == Stops(s.mem, x.git, Paused)
              case Returned(OperationalFailureStatus, _, _, _) =>
                var e := s.mem.lastError;
                if e.Some? && e.value.retryable && !e.value.requiresRepair && s.mem.phase.OperationalFailure?
                   && s.mem.operationalRetries < s.mem.body.options.maxOperationalRetries
                then
                  if r.GoesOn?
                  then r.doc == s.mem.(operationalRetries := s.mem.operationalRetries + 1, checkpoints := r.doc.checkpoints)
                       && r.git == x.git && i.retrySave.SaveWorks?
                  else r.ended.Crashed? && (i.retrySave.SaveWorks? ==> Checkpoint(s.mem, x.git).None?)
                else r == Stops(s.mem, x.git, Failing)
              case _ => r == GoesOn(s.mem, x.git)
  {
  }

  /** The task worktree cannot be read for the checkpoint. */
  predicate Unreadable(d: Doc, x: Dispatched) {
    !EffectivePhase(InMemory(d, x)).CleanupBranch? && x.body.task.path.Some? && HeadAt(x.git, x.body.task.path.value).None?
  }
}
