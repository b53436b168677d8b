/** Phase by phase: from a settled run every dispatch lands in a state that can be saved,
    given the guard of that phase. */
module PhaseSteps {
  import opened Text
  import opened Contracts
  import opened Document
  import opened Repository
  import opened Decisions
  import opened Transitions
  import opened Invariant
  import opened RepositoryFacts

  predicate Resting(b: Body, g: Git, p: Phase) {
    WellFormed(g) && Settled(b, p) && WorktreeAgrees(b, g, p)
  }

  /** A fault whose record the reader accepts, up to its message. */
  predicate Recordable(f: Fault, failedPhase: Phase) {
    !f.kind.TerminalKind? && (f.kind.MergeConflictKind? ==> failedPhase.Merging?)
  }

  /** Where a dispatch of body `b` from phase `p` may land. */
  predicate Lands(x: Dispatched, p: Phase, b: Body) {
    && WellFormed(x.git)
    && x.body.options == b.options
    && (IsPostBuild(x.phase) ==> p.Building? || (IsPostBuild(p) && x.body.lastTaskHead == b.lastTaskHead))
    && (x.phase.CleanupBranch? ==> IsMergeOrCleanup(p))
    && !x.phase.OperationalFailure?
    && match x.raise
       case NoRaise =>
         if x.phase.Done? then DoneSaveable(x.body) && Resting(x.body, x.git, p) else Resting(x.body, x.git, x.phase)
       case InputRequired => x.phase.AwaitingInput? && Resting(x.body, x.git, AwaitingInput)
       case Operational(f) => x.phase == p && Resting(x.body, x.git, p) && Recordable(f, p)
       case LoopFailure(_) => FailureSaveable(x.body, p)
       case Escapes => true
  }

  // ---------------------------------------------------------------- guards

  /** The planner keeps the task a REVISE or ACCEPT verdict still speaks about. */
  predicate KeepsAuditedTask(r: Results, planner: PlannerResult) {
    r.auditor.Some? && !r.auditor.value.disposition.Replan? && planner.taskId.Some? ==>
      r.auditor.value.taskId == planner.taskId.value
  }

  predicate PlanningGuard(b: Body, i: StepInput) {
    b.counters.accepted < b.options.maxAcceptedTasks && i.planner.Replied? ==> KeepsAuditedTask(b.results, i.planner.value)
  }

  predicate AsksForApproval(b: Body, i: StepInput) {
    && b.options.requireApproval && i.architect.Replied? && i.architect.value.status.Decided?
    && b.results.decision.Some? && i.architect.value.question == b.results.decision.value.question
  }

  /** An ADR put to the operator for approval has a title and a decision. */
  predicate ArchitectingGuard(b: Body, i: StepInput) {
    AsksForApproval(b, i) && i.architect.value.adr.Some? ==>
      i.architect.value.adr.value.title != "" && i.architect.value.adr.value.decision != ""
  }

  predicate ReportsComplete(b: Body, i: StepInput) {
    && i.builder.Replied? && i.builder.value.status.Complete? && b.results.planner.Some?
    && SameTask(OrEmpty(b.results.planner.value.taskId), i.builder.value.taskId, i.builder.value.objective)
  }

  /** A build that acted on operator guidance and reports COMPLETE also verifies. */
  predicate BuildingGuard(b: Body, g: Git, i: StepInput) {
    b.question.Some? && HasWorktree(b.task) && ReportsComplete(b, i) ==>
      i.gitBefore.None? && Verified(b, WorktreeEdit(b.task, g, i.edit), i.builder.value).Ok?
  }

  /** The edit leaves the task HEAD elsewhere. */
  predicate MovesHead(b: Body, g: Git, e: Edit) {
    b.task.path.Some? && HeadAt(WorktreeEdit(b.task, g, e), b.task.path.value) != HeadAt(g, b.task.path.value)
  }

  predicate VerifyingGuard(b: Body, g: Git, i: StepInput) {
    i.gitBefore.None? ==> !MovesHead(b, g, i.edit)
  }

  /** The verdict takes the task back before its build. */
  predicate LeavesPostBuild(b: Body, i: StepInput) {
    match i.auditor
    case AgentFailed(kind, _) => kind.OtherAgentError?
    case Replied(r) =>
      && b.results.planner.Some? && SameTask(OrEmpty(b.results.planner.value.taskId), r.taskId, r.objective)
      && !r.disposition.Accept?
  }

  /** Only the builder moves the task HEAD, unless the verdict discards the build anyway. */
  predicate AuditingGuard(b: Body, g: Git, i: StepInput) {
    i.gitBefore.None? && MovesHead(b, g, i.edit) ==> LeavesPostBuild(b, i)
  }

  predicate PhaseGuard(d: Doc, g: Git, i: StepInput) {
    match d.phase
    case Planning => PlanningGuard(d.body, i)
    case Architecting => ArchitectingGuard(d.body, i)
    case Building => BuildingGuard(d.body, g, i)
    case Verifying => VerifyingGuard(d.body, g, i)
    case Auditing => AuditingGuard(d.body, g, i)
    case _ => true
  }

  // ------------------------------------------------------------ the phases

  lemma EditAgrees(b: Body, g: Git, p: Phase, e: Edit)
    requires Resting(b, g, p) && EditFits(g, e) && (IsPostBuild(p) ==> !MovesHead(b, g, e))
    ensures WellFormed(WorktreeEdit(b.task, g, e))
    ensures WorktreeAgrees(b, WorktreeEdit(b.task, g, e), p)
  {
    if b.task.path.Some? {
      EditKeeps(g, b.task.path.value, e);
    }
  }

  lemma StartTaskLands(b: Body, g: Git, r: PlannerResult)
    requires WellFormed(g) && BodyOk(b) && FullTask(b.task)
    requires b.results.planner == Some(r) && r.status.Ready?
    requires b.results.builder.None? && b.results.verification.None? && b.results.decision.None? && b.question.None?
    requires b.counters.accepted < b.options.maxAcceptedTasks && b.counters.replans <= b.options.maxReplans
    requires b.intents.treePath.None?
    requires WorktreeAgrees(b, g, Building)
    ensures Lands(StartTask(b, g, r), Planning, b)
    ensures StartTask(b, g, r).raise.NoRaise?
  {
    var x := StartTask(b, g, r);
    assert WorktreeAgrees(x.body, g, x.phase);
  }

  lemma IntendWorktreeLands(b: Body, g: Git, r: PlannerResult, i: StepInput)
    requires Resting(b, g, Planning) && b.results.planner == Some(r) && r.status.Ready? && NoTask(b.task)
    requires b.counters.accepted < b.options.maxAcceptedTasks
    ensures Lands(IntendWorktree(b, g, r, i), Planning, b)
  {
    MainIsCanonical(g);
    assert WorktreePathFor(g, OrEmpty(r.taskId)) != "" && BranchFor(OrEmpty(r.taskId)) != "" by {
      assert |BranchFor(OrEmpty(r.taskId))| >= 5;
      assert |WorktreePathFor(g, OrEmpty(r.taskId))| >= 1;
    }
  }

  /** A new plan for the task in hand leaves a settled run settled. */
  lemma ReplannedIsSettled(b: Body, r: PlannerResult)
    requires Settled(b, Planning) && ValidPlanner(r) && KeepsAuditedTask(b.results, r)
    ensures Settled(b.(results := b.results.(planner := Some(r))), Planning)
  {
    assert SameTaskAcrossRoles(b.results.(planner := Some(r)));
  }

  lemma FollowPlanLands(b: Body, g: Git, r: PlannerResult, i: StepInput)
    requires Resting(b, g, Planning) && b.results.planner == Some(r)
    requires b.counters.accepted < b.options.maxAcceptedTasks
    ensures Lands(FollowPlan(b, g, r, i), Planning, b)
  {
    if r.status.NoMoreWork? {
    } else if b.task.path.None? {
      IntendWorktreeLands(b, g, r, i);
    } else {
      StartTaskLands(b, g, r);
    }
  }

  lemma PlanningLands(b: Body, g: Git, i: StepInput)
    requires Resting(b, g, Planning) && InputFits(b, g, i) && PlanningGuard(b, i)
    ensures Lands(DoPlanning(b, g, i), Planning, b)
  {
    if b.counters.accepted < b.options.maxAcceptedTasks {
      EditAgrees(b, g, Planning, i.edit);
      if i.planner.Replied? {
        var b1 := b.(results := b.results.(planner := Some(i.planner.value)));
        ReplannedIsSettled(b, i.planner.value);
        FollowPlanLands(b1, WorktreeEdit(b.task, g, i.edit), i.planner.value, i);
      }
    }
  }

  lemma CreatingLands(b: Body, g: Git, i: StepInput)
    requires Resting(b, g, CreatingWorktree)
    ensures Lands(DoCreatingWorktree(b, g, i), CreatingWorktree, b)
  {
    var r := b.results.planner.value;
    var made := CreateOrReconcile(g, OrEmpty(r.taskId), b.intents.treePath.value, b.intents.treeBranch.value, b.intents.treeBase.value);
    if i.gitBefore.None? && made.Ok? {
      CreateKeeps(g, OrEmpty(r.taskId), b.intents.treePath.value, b.intents.treeBranch.value, b.intents.treeBase.value);
      var b1 := AdoptWorktree(b, r);
      assert FullTask(b1.task) && BodyOk(b1);
      StartTaskLands(b1, made.value, r);
    }
  }

  /** An approved decision with its target fixed may be recorded. */
  lemma PreparedIsSettled(b: Body, p: Phase, target: AdrPath, adr: Adr)
    requires Settled(b, p) && (p.Architecting? || p.AwaitingInput?) && ValidTarget(OrEmpty(b.task.path), target)
    requires DecisionMatches(b.results, true) && b.results.architect.Some? && b.results.architect.value.status.Decided?
    requires b.results.architect.value.adr == Some(adr)
    ensures Settled(b.(intents := b.intents.(adrPath := Some(target), adrHash := Some(Rendered(adr))), question := None),
                    RecordingDecision)
  {
  }

  lemma PrepareLands(b: Body, p: Phase, g: Git, i: StepInput)
    requires Resting(b, g, p) && (p.Architecting? || p.AwaitingInput?)
    requires DecisionMatches(b.results, true) && b.results.architect.Some? && b.results.architect.value.status.Decided?
    ensures Lands(PrepareRecordDecision(b, p, g, i), p, b)
  {
    if b.results.architect.value.adr.Some? && i.adrFault.None? {
      var adr := b.results.architect.value.adr.value;
      if ValidTarget(OrEmpty(b.task.path), NextTarget(g, OrEmpty(b.task.path), adr)) {
        PreparedIsSettled(b, p, NextTarget(g, OrEmpty(b.task.path), adr), adr);
      }
    }
  }

  /** The architect's answer to the question at hand leaves a settled run settled. */
  lemma ArchitectedIsSettled(b: Body, r: ArchitectResult)
    requires Settled(b, Architecting) && ValidArchitect(r) && r.question == b.results.decision.value.question
    ensures Settled(b.(results := b.results.(architect := Some(r))), Architecting)
    ensures DecisionMatches(b.(results := b.results.(architect := Some(r))).results, true)
  {
    assert ResultsOk(b.(results := b.results.(architect := Some(r))).results);
  }

  lemma AskArchitectInputLands(b: Body, g: Git, r: ArchitectResult)
    requires Resting(b, g, Architecting) && DecisionMatches(b.results, true) && b.results.architect == Some(r)
    requires ValidArchitect(r) && r.status.NeedsInput?
    ensures Lands(AskArchitectInput(b, g, r), Architecting, b)
  {
    assert ValidDecision(b.results.decision.value);
  }

  lemma AskApprovalLands(b: Body, g: Git, r: ArchitectResult, adr: Adr)
    requires Resting(b, g, Architecting) && DecisionMatches(b.results, true) && b.results.architect == Some(r)
    requires r.status.Decided? && r.adr == Some(adr) && adr.title != "" && adr.decision != ""
    ensures Lands(AskApproval(b, g, adr), Architecting, b)
  {
  }

  lemma ArchitectingLands(b: Body, g: Git, i: StepInput)
    requires Resting(b, g, Architecting) && InputFits(b, g, i) && ArchitectingGuard(b, i)
    ensures Lands(DoArchitecting(b, g, i), Architecting, b)
  {
    EditAgrees(b, g, Architecting, i.edit);
    var g1 := WorktreeEdit(b.task, g, i.edit);
    if i.architect.Replied? && i.architect.value.question == b.results.decision.value.question {
      var r := i.architect.value;
      var b1 := b.(results := b.results.(architect := Some(r)));
      ArchitectedIsSettled(b, r);
      if r.status.NeedsInput? {
        AskArchitectInputLands(b1, g1, r);
      } else if b.options.requireApproval {
        AskApprovalLands(b1, g1, r, r.adr.value);
      } else {
        PrepareLands(b1, Architecting, g1, i);
      }
    }
  }

  /** Once the decision is on file the task goes on with whoever raised it. */
  lemma RecordedIsSettled(b: Body, origin: Origin)
    requires Settled(b, RecordingDecision) && b.results.decision.Some? && b.results.decision.value.origin == origin
    ensures Settled(b.(intents := b.intents.(adrPath := None, adrHash := None),
                       results := b.results.(decision := None),
                       counters := b.counters.(architectRetries := 0)),
                    if origin.FromPlanner? then Building else Planning)
  {
  }

  lemma RecordingLands(b: Body, g: Git, i: StepInput)
    requires Resting(b, g, RecordingDecision)
    ensures Lands(DoRecordingDecision(b, g, i), RecordingDecision, b)
  {
    var wrote := WriteAdr(g, OrEmpty(b.task.path), b.results.architect.value.adr.value,
                          b.intents.adrPath.value, b.intents.adrHash.value, i.adrLine);
    if i.adrFault.None? && wrote.Ok? {
      WriteKeeps(g, OrEmpty(b.task.path), b.results.architect.value.adr.value,
                 b.intents.adrPath.value, b.intents.adrHash.value, i.adrLine);
      RecordedIsSettled(b, b.results.decision.value.origin);
    }
  }

  // -------------------------------------------------------------- building

  lemma BuiltIsSettled(b: Body, r: BuilderResult)
    requires Settled(b, Building) && b.question.None? && ValidBuilder(r)
    requires b.results.planner.value.taskId == Some(r.taskId)
    ensures Settled(b.(results := b.results.(builder := Some(r))), Building)
  {
    assert ResultsOk(b.(results := b.results.(builder := Some(r))).results);
  }

  /** The build has been verified at `head`, for the question it may have answered. */
  lemma VerifiedIsSettled(b: Body, r: BuilderResult, head: string, p: Phase)
    requires Settled(b, Building) && ValidBuilder(r) && r.status.Complete?
    requires b.results.planner.value.taskId == Some(r.taskId)
    requires IsReportedCommit(OrEmpty(r.commit)) && IsCanonicalCommit(head) && CommitIdsMatch(OrEmpty(r.commit), head)
    requires p == if b.options.verifyCommands != [] then Verifying else Auditing
    ensures Settled(b.(results := b.results.(builder := Some(r)), lastTaskHead := Some(head), question := None,
                       counters := b.counters.(guidance := 0)), p)
  {
    assert ResultsOk(b.(results := b.results.(builder := Some(r))).results);
  }

  lemma FinishBuildLands(b: Body, g: Git, r: BuilderResult, i: StepInput)
    requires WellFormed(g) && Settled(b, Building) && WorktreeAgrees(b, g, Building)
    requires ValidBuilder(r) && r.status.Complete? && b.results.planner.value.taskId == Some(r.taskId)
    requires b.question.Some? ==> i.gitBefore.None? && Verified(b, g, r).Ok?
    ensures Lands(FinishBuild(b.(results := b.results.(builder := Some(r))), g, r, i), Building, b)
  {
    if i.gitBefore.None? && Verified(b, g, r).Ok? {
      var head := Verified(b, g, r).value;
      HeadIsCanonical(g, b.task.path.value);
      VerifiedIsSettled(b, r, head, if b.options.verifyCommands != [] then Verifying else Auditing);
    } else {
      BuiltIsSettled(b, r);
    }
  }

  lemma AskGuidanceLands(b: Body, g: Git, r: BuilderResult)
    requires WellFormed(g) && Settled(b, Building) && WorktreeAgrees(b, g, Building)
    requires ValidBuilder(r) && !r.status.Complete? && b.results.planner.value.taskId == Some(r.taskId)
    ensures Lands(AskGuidance(b.(results := b.results.(builder := Some(r))), g, r), Building, b)
  {
    assert ResultsOk(b.(results := b.results.(builder := Some(r))).results);
  }

  lemma BuildingLands(b: Body, g: Git, i: StepInput)
    requires Resting(b, g, Building) && InputFits(b, g, i) && BuildingGuard(b, g, i)
    ensures Lands(DoBuilding(b, g, i), Building, b)
  {
    EditAgrees(b, g, Building, i.edit);
    var g1 := WorktreeEdit(b.task, g, i.edit);
    if i.builder.Replied? && SameTask(OrEmpty(b.results.planner.value.taskId), i.builder.value.taskId, i.builder.value.objective) {
      if i.builder.value.status.Complete? {
        FinishBuildLands(b, g1, i.builder.value, i);
      } else {
        AskGuidanceLands(b, g1, i.builder.value);
      }
    }
  }

  // ----------------------------------------------- verifying and auditing

  lemma SummaryIsValid(commands: seq<string>, runs: seq<CommandRun>)
    requires |runs| == |commands| && forall k :: 0 <= k < |commands| ==> commands[k] != ""
    requires forall k :: 0 <= k < |runs| ==> runs[k].timedOut ==> runs[k].returncode.None?
    ensures ValidVerification(Summary(commands, runs))
    ensures CommandTexts(Summary(commands, runs).commands) == commands
  {
  }

  lemma CheckedIsSettled(b: Body, v: VerificationResult)
    requires Settled(b, Verifying) && ValidVerification(v) && CommandTexts(v.commands) == b.options.verifyCommands
    ensures Settled(b.(results := b.results.(verification := Some(v))), Auditing)
  {
  }

  lemma VerifyingLands(b: Body, g: Git, i: StepInput)
    requires Resting(b, g, Verifying) && InputFits(b, g, i) && VerifyingGuard(b, g, i)
    ensures Lands(DoVerifying(b, g, i), Verifying, b)
  {
    if i.gitBefore.None? {
      EditAgrees(b, g, Verifying, i.edit);
      SummaryIsValid(b.options.verifyCommands, i.runs);
      CheckedIsSettled(b, Summary(b.options.verifyCommands, i.runs));
    }
  }

  lemma AuditedIsSettled(b: Body, r: AuditorResult)
    requires Settled(b, Auditing) && ValidAuditor(r) && b.results.planner.value.taskId == Some(r.taskId)
    ensures Settled(b.(results := b.results.(auditor := Some(r))), Auditing)
  {
    assert ResultsOk(b.(results := b.results.(auditor := Some(r))).results);
  }

  lemma AcceptLands(b: Body, g: Git, i: StepInput)
    requires Resting(b, g, Auditing) && b.results.auditor.Some? && b.results.auditor.value.disposition.Accept?
    ensures Lands(AcceptTask(b, g, i), Auditing, b)
  {
    MainIsCanonical(g);
  }

  lemma ReviseLands(b: Body, g: Git)
    requires WellFormed(g) && Settled(b, Auditing) && WorktreeAgrees(b, g, Building)
    ensures Lands(ReviseTask(b, g), Auditing, b)
  {
  }

  lemma ReplanLands(b: Body, g: Git, r: AuditorResult)
    requires WellFormed(g) && Settled(b, Auditing) && WorktreeAgrees(b, g, Building)
    requires b.results.auditor == Some(r) && r.disposition.Replan? && b.results.planner.value.taskId == Some(r.taskId)
    ensures Lands(ReplanTask(b, g, r), Auditing, b)
  {
  }

  lemma AuditingLands(b: Body, g: Git, i: StepInput)
    requires Resting(b, g, Auditing) && InputFits(b, g, i) && AuditingGuard(b, g, i)
    ensures Lands(DoAuditing(b, g, i), Auditing, b)
  {
    if i.gitBefore.None? {
      var g1 := WorktreeEdit(b.task, g, i.edit);
      EditAgreesBeforeBuild(b, g, i.edit);
      if !MovesHead(b, g, i.edit) {
        EditAgrees(b, g, Auditing, i.edit);
      }
      if i.auditor.Replied? && SameTask(OrEmpty(b.results.planner.value.taskId), i.auditor.value.taskId, i.auditor.value.objective) {
        var r := i.auditor.value;
        var b1 := b.(results := b.results.(auditor := Some(r)));
        AuditedIsSettled(b, r);
        match r.disposition
        case Accept => AcceptLands(b1, g1, i);
        case Revise => ReviseLands(b1, g1);
        case Replan => ReplanLands(b1, g1, r);
      }
    }
  }

  /** Moving the HEAD after the build is harmless to a state that lets the build go. */
  lemma EditAgreesBeforeBuild(b: Body, g: Git, e: Edit)
    requires Resting(b, g, Auditing) && EditFits(g, e)
    ensures WellFormed(WorktreeEdit(b.task, g, e))
    ensures WorktreeAgrees(b, WorktreeEdit(b.task, g, e), Building)
  {
    EditKeeps(g, b.task.path.value, e);
  }

  // ----------------------------------------------------- merge and cleanup

  lemma MergeIsKnown(g: Git, pre: string, task: string, choice: MergeChoice)
    requires WellFormed(g) && (choice.Merged? ==> FreshCommit(g, choice.commit))
    requires ReconcileOrMerge(g, pre, task, choice).1.Ok?
    ensures IsCanonicalCommit(ReconcileOrMerge(g, pre, task, choice).1.value)
  {
  }

  lemma MergedIsSettled(b: Body, commit: string)
    requires Settled(b, Merging) && commit != ""
    ensures Settled(b.(intents := b.intents.(mergeCommit := Some(commit))), CleanupWorktree)
  {
  }

  lemma MergeAgrees(b: Body, g: Git, i: StepInput, p: Phase)
    requires Resting(b, g, Merging) && InputFits(b, g, i) && (p.Merging? || p.CleanupWorktree?)
    ensures WellFormed(ReconcileOrMerge(g, b.intents.mergePre.value, b.intents.mergeTask.value, i.merge).0)
    ensures WorktreeAgrees(b, ReconcileOrMerge(g, b.intents.mergePre.value, b.intents.mergeTask.value, i.merge).0, p)
  {
    MergeKeeps(g, b.intents.mergePre.value, b.intents.mergeTask.value, i.merge);
  }

  lemma AttemptedLands(b: Body, g: Git, merged: Outcome<string>, i: StepInput)
    requires WellFormed(g) && Settled(b, Merging) && WorktreeAgrees(b, g, Merging) && WorktreeAgrees(b, g, CleanupWorktree)
    requires merged.Ok? ==> merged.value != ""
    ensures Lands(MergeAttempted(b, g, merged, i), Merging, b)
  {
    if merged.Ok? {
      MergedIsSettled(b, merged.value);
    }
  }

  /** Merging either stops before the attempt, where it is, or goes by what came of it. */
  lemma MergingStops(b: Body, g: Git, i: StepInput)
    requires Resting(b, g, Merging) && (i.gitBefore.Some? || HeadAt(g, b.task.path.value) != b.intents.mergeTask)
    ensures var x := DoMerging(b, g, i);
      x.body == b && x.phase.Merging? && x.git == g && x.raise.Operational? && Recordable(x.raise.fault, Merging)
  {
  }

  lemma MergingAttempts(b: Body, g: Git, i: StepInput)
    requires Resting(b, g, Merging) && i.gitBefore.None? && HeadAt(g, b.task.path.value) == b.intents.mergeTask
    ensures var (h, merged) := ReconcileOrMerge(g, b.intents.mergePre.value, b.intents.mergeTask.value, i.merge);
      DoMerging(b, g, i) == MergeAttempted(b, h, merged, i)
  {
  }

  lemma MergingLands(b: Body, g: Git, i: StepInput)
    requires Resting(b, g, Merging) && InputFits(b, g, i)
    ensures Lands(DoMerging(b, g, i), Merging, b)
  {
    if i.gitBefore.Some? || HeadAt(g, b.task.path.value) != b.intents.mergeTask {
      MergingStops(b, g, i);
    } else {
      MergingAttempts(b, g, i);
      AttemptLands(b, g, i);
    }
  }

  lemma AttemptLands(b: Body, g: Git, i: StepInput)
    requires Resting(b, g, Merging) && InputFits(b, g, i)
    ensures var (h, merged) := ReconcileOrMerge(g, b.intents.mergePre.value, b.intents.mergeTask.value, i.merge);
      Lands(MergeAttempted(b, h, merged, i), Merging, b)
  {
    var pre, task := b.intents.mergePre.value, b.intents.mergeTask.value;
    var (h, merged) := ReconcileOrMerge(g, pre, task, i.merge);
    MergeAgrees(b, g, i, Merging);
    MergeAgrees(b, g, i, CleanupWorktree);
    if merged.Ok? {
      MergeIsKnown(g, pre, task, i.merge);
    }
    AttemptedLands(b, h, merged, i);
  }

  lemma CleanedIsSettled(b: Body)
    requires Settled(b, CleanupWorktree)
    ensures Settled(b, CleanupBranch)
  {
  }

  lemma RemovedAgrees(b: Body, g: Git)
    requires WellFormed(g) && FullTask(b.task) && b.task.branch.value != g.mainBranch && b.task.path.value !in g.strays
    requires RemoveWorktree(g, b.task.path.value, b.task.branch.value).Ok?
    ensures WellFormed(RemoveWorktree(g, b.task.path.value, b.task.branch.value).value)
    ensures WorktreeAgrees(b, RemoveWorktree(g, b.task.path.value, b.task.branch.value).value, CleanupBranch)
  {
    RemoveKeeps(g, b.task.path.value, b.task.branch.value);
  }

  lemma RemoveTreeLands(b: Body, g: Git, i: StepInput)
    requires Resting(b, g, CleanupWorktree)
    ensures Lands(RemoveTree(b, g, i), CleanupWorktree, b)
  {
    CleanedIsSettled(b);
    if RemoveWorktree(g, b.task.path.value, b.task.branch.value).Ok? {
      RemovedAgrees(b, g);
    }
  }

  lemma CleanupWorktreeLands(b: Body, g: Git, i: StepInput)
    requires Resting(b, g, CleanupWorktree)
    ensures Lands(DoCleanupWorktree(b, g, i), CleanupWorktree, b)
  {
    RemoveTreeLands(b, g, i);
  }

  lemma FinishLands(b: Body, g: Git)
    requires WellFormed(g) && Settled(b, CleanupBranch)
    ensures Lands(FinishTask(b, g), CleanupBranch, b)
  {
  }

  lemma CleanupBranchLands(b: Body, g: Git, i: StepInput)
    requires Resting(b, g, CleanupBranch)
    ensures Lands(DoCleanupBranch(b, g, i), CleanupBranch, b)
  {
    if DeleteBranch(g, b.task.branch.value).Ok? {
      DeleteKeeps(g, b.task.branch.value);
      FinishLands(b, DeleteBranch(g, b.task.branch.value).value);
    }
  }

  // ---------------------------------------------------------- pending input

  lemma OperatorReplanLands(b: Body, g: Git)
    requires Resting(b, g, AwaitingInput) && b.results.builder.Some?
    ensures Lands(OperatorReplan(b, g), AwaitingInput, b)
  {
  }

  lemma GuidedLands(b: Body, g: Git, answer: string)
    requires Resting(b, g, AwaitingInput)
    requires b.question.value.kind.BuilderGuidance? || b.question.value.kind.ArchitectInput?
    ensures Resting(b.(question := Some(b.question.value.(answer := Some(answer)))), g,
                    if b.question.value.kind.BuilderGuidance? then Building else Architecting)
  {
  }

  lemma ApprovalLands(b: Body, g: Git, answer: string, i: StepInput)
    requires Resting(b, g, AwaitingInput) && b.question.value.kind.DecisionApproval?
    ensures Lands(ResolveInput(b, g, answer, i), AwaitingInput, b)
  {
    if IsApproval(answer) {
      var answered := b.(question := Some(b.question.value.(answer := Some(answer))));
      assert Settled(answered, AwaitingInput);
      PrepareLands(answered, AwaitingInput, g, i);
    }
  }

  lemma ResolveLands(b: Body, g: Git, answer: string, i: StepInput)
    requires Resting(b, g, AwaitingInput)
    ensures Lands(ResolveInput(b, g, answer, i), AwaitingInput, b)
  {
    match b.question.value.kind
    case ArchitectInput => GuidedLands(b, g, answer);
    case DecisionApproval => ApprovalLands(b, g, answer, i);
    case BuilderGuidance =>
      if Lower(Strip(answer)) == "replan" {
        OperatorReplanLands(b, g);
      } else {
        GuidedLands(b, g, answer);
      }
    case BuilderEscalation =>
      if Lower(Strip(answer)) == "replan" {
        OperatorReplanLands(b, g);
      }
  }
}
