/** What a run carries from step to step in memory, whether or not its documents can be read back:
    limits, the task and its branch, the plan, and where a failure is retried. */
module Carrying {
  import opened Text
  import opened Contracts
  import opened Document
  import opened Repository
  import opened Transitions
  import opened Invariant
  import opened RepositoryFacts
  import opened Conservation
  import opened Termination

  // ------------------------------------------------------------- invariant

  predicate TaskWhole(t: Task) {
    NoTask(t) || (t.id.Some? && t.path.Some? && t.branch.Some? && t.base.Some?)
  }

  /** A plan that names its task in full, as the end of cleanup needs it. */
  predicate PlanComplete(r: Results) {
    && r.planner.Some? && r.planner.value.taskId.Some?
    && r.planner.value.objective.Some? && r.planner.value.rationale.Some?
  }

  /** Outside planning there is a complete plan. */
  predicate PlanKept(b: Body, p: Phase) {
    !p.Planning? ==> PlanComplete(b.results)
  }

  /** The task's worktree, while it is there, is on the task's branch, which is not the integration branch. */
  predicate OnItsBranch(t: Task, g: Git) {
    t.path.Some? ==>
      && t.branch.Some? && t.branch.value != g.mainBranch
      && (t.path.value in g.trees ==> g.trees[t.path.value].branch == t.branch.value)
  }

  predicate TaskFits(b: Body, g: Git, p: Phase) {
    && TaskWhole(b.task)
    && (NoTask(b.task) ==> p.Planning? || p.CreatingWorktree?)
    && (p.CreatingWorktree? ==> NoTask(b.task))
    && OnItsBranch(b.task, g)
  }

  /** A body that a live run may be in phase `p` with. */
  predicate Carried(b: Body, g: Git, p: Phase) {
    Bounded(b, p) && PlanKept(b, p) && TaskFits(b, g, p)
  }

  /** An open failure is retried in the phase that failed, which is not terminal. */
  predicate FailureRecorded(d: Doc) {
    d.phase.OperationalFailure? ==>
      && d.lastError.Some? && d.lastError.value.retryable
      && d.lastError.value.retryPhase == Some(d.lastError.value.failedPhase)
      && IsRetryTarget(d.lastError.value.failedPhase)
  }

  /** All the tasks allowed are accepted, or the planner has said that there is no more work. */
  predicate WorkIsOver(b: Body) {
    || b.counters.accepted >= b.options.maxAcceptedTasks
    || (b.results.planner.Some? && b.results.planner.value.status.NoMoreWork?)
  }

  predicate CarriedDoc(d: Doc, g: Git) {
    && WellFormed(g)
    && RetriesOk(d)
    && FailureRecorded(d)
    && (if IsTerminal(d.phase) then TaskBudgetOk(d.body) && (d.phase.Done? ==> NoTask(d.body.task) && WorkIsOver(d.body))
        else Carried(d.body, g, EffectivePhase(d)))
  }

  // ------------------------------------------------------------ every phase

  /** Where a dispatch of body `b` from phase `p` leads, as far as the task goes. */
  predicate KeepsTask(x: Dispatched, b: Body, p: Phase) {
    && x.body.options == b.options && x.body.header == b.header
    && !x.phase.OperationalFailure?
    && match x.raise
       case NoRaise => if x.phase.Done? then NoTask(x.body.task) && WorkIsOver(x.body) else TaskFits(x.body, x.git, x.phase)
       case InputRequired => TaskFits(x.body, x.git, x.phase)
       case Operational(_) => TaskFits(x.body, x.git, p)
       case LoopFailure(_) =>
         x.body.task == b.task && x.body.intents.treePath == b.intents.treePath && x.body.counters.accepted == b.counters.accepted
       case Escapes => true
  }

  lemma EditKeepsBranch(t: Task, g: Git, e: Edit)
    requires WellFormed(g) && EditFits(g, e) && OnItsBranch(t, g)
    ensures OnItsBranch(t, WorktreeEdit(t, g, e)) && WorktreeEdit(t, g, e).mainBranch == g.mainBranch
  {
    if t.path.Some? {
      EditKeeps(g, t.path.value, e);
    }
  }

  lemma PlanningKeepsTask(b: Body, g: Git, i: StepInput)
    requires WellFormed(g) && Carried(b, g, Planning) && InputFits(b, g, i)
    ensures KeepsTask(DoPlanning(b, g, i), b, Planning)
  {
    EditKeepsBranch(b.task, g, i.edit);
  }

  lemma CreatingKeepsTask(b: Body, g: Git, i: StepInput)
    requires WellFormed(g) && Carried(b, g, CreatingWorktree)
    ensures KeepsTask(DoCreatingWorktree(b, g, i), b, CreatingWorktree)
  {
    var n := b.intents;
    if n.treePath.Some? && n.treeBranch.Some? && n.treeBase.Some? && b.results.planner.Some? {
      var taskId := OrEmpty(b.results.planner.value.taskId);
      if CreateOrReconcile(g, taskId, n.treePath.value, n.treeBranch.value, n.treeBase.value).Ok? {
        CreateKeeps(g, taskId, n.treePath.value, n.treeBranch.value, n.treeBase.value);
      }
    }
  }

  lemma ArchitectingKeepsTask(b: Body, g: Git, i: StepInput)
    requires WellFormed(g) && Carried(b, g, Architecting) && InputFits(b, g, i)
    ensures KeepsTask(DoArchitecting(b, g, i), b, Architecting)
  {
    EditKeepsBranch(b.task, g, i.edit);
  }

  lemma RecordingKeepsTask(b: Body, g: Git, i: StepInput)
    requires WellFormed(g) && Carried(b, g, RecordingDecision)
    ensures KeepsTask(DoRecordingDecision(b, g, i), b, RecordingDecision)
  {
  }

  lemma BuildingKeepsTask(b: Body, g: Git, i: StepInput)
    requires WellFormed(g) && Carried(b, g, Building) && InputFits(b, g, i)
    ensures KeepsTask(DoBuilding(b, g, i), b, Building)
  {
    EditKeepsBranch(b.task, g, i.edit);
  }

  lemma VerifyingKeepsTask(b: Body, g: Git, i: StepInput)
    requires WellFormed(g) && Carried(b, g, Verifying) && InputFits(b, g, i)
    ensures KeepsTask(DoVerifying(b, g, i), b, Verifying)
  {
    EditKeepsBranch(b.task, g, i.edit);
  }

  lemma AuditingKeepsTask(b: Body, g: Git, i: StepInput)
    requires WellFormed(g) && Carried(b, g, Auditing) && InputFits(b, g, i)
    ensures KeepsTask(DoAuditing(b, g, i), b, Auditing)
  {
    EditKeepsBranch(b.task, g, i.edit);
  }

  lemma MergeKeepsBranch(t: Task, g: Git, pre: string, task: string, choice: MergeChoice)
    requires WellFormed(g) && OnItsBranch(t, g) && (choice.Merged? ==> FreshCommit(g, choice.commit))
    ensures OnItsBranch(t, ReconcileOrMerge(g, pre, task, choice).0)
  {
    MergeKeeps(g, pre, task, choice);
  }

  lemma AttemptKeepsTask(b: Body, g: Git, merged: Outcome<string>, i: StepInput)
    requires TaskFits(b, g, Merging)
    ensures KeepsTask(MergeAttempted(b, g, merged, i), b, Merging)
  {
  }

  lemma MergingKeepsTask(b: Body, g: Git, i: StepInput)
    requires WellFormed(g) && Carried(b, g, Merging) && InputFits(b, g, i)
    ensures KeepsTask(DoMerging(b, g, i), b, Merging)
  {
    MergingAttemptsOnce(b, g, i);
    if b.intents.mergePre.Some? && b.intents.mergeTask.Some? {
      MergeKeepsBranch(b.task, g, b.intents.mergePre.value, b.intents.mergeTask.value, i.merge);
      var (h, merged) := ReconcileOrMerge(g, b.intents.mergePre.value, b.intents.mergeTask.value, i.merge);
      AttemptKeepsTask(b, h, merged, i);
    }
  }

  /** Merging goes by what came of the attempt, or stops where it is. */
  lemma MergingAttemptsOnce(b: Body, g: Git, i: StepInput)
    requires HasMain(g)
    ensures var x := DoMerging(b, g, i);
      || (b.intents.mergePre.Some? && b.intents.mergeTask.Some?
          && var (h, merged) := ReconcileOrMerge(g, b.intents.mergePre.value, b.intents.mergeTask.value, i.merge);
             x == MergeAttempted(b, h, merged, i))
      || (x.body == b && x.phase.Merging? && x.git == g && (x.raise.Operational? || x.raise.LoopFailure?))
  {
  }

  lemma CleanupWorktreeKeepsTask(b: Body, g: Git, i: StepInput)
    requires WellFormed(g) && Carried(b, g, CleanupWorktree)
    ensures KeepsTask(DoCleanupWorktree(b, g, i), b, CleanupWorktree)
  {
  }

  lemma CleanupBranchKeepsTask(b: Body, g: Git, i: StepInput)
    requires WellFormed(g) && Carried(b, g, CleanupBranch)
    ensures KeepsTask(DoCleanupBranch(b, g, i), b, CleanupBranch)
  {
  }

  lemma ResolvingKeepsTask(b: Body, g: Git, answer: string, i: StepInput)
    requires WellFormed(g) && Carried(b, g, AwaitingInput)
    ensures KeepsTask(ResolveInput(b, g, answer, i), b, AwaitingInput)
  {
    if b.question.Some? {
      match b.question.value.kind
      case BuilderGuidance => ReplanKeepsTask(b, g);
      case BuilderEscalation => ReplanKeepsTask(b, g);
      case ArchitectInput =>
      case DecisionApproval => PrepareKeepsTask(b.(question := Some(b.question.value.(answer := Some(answer)))), g, i);
    }
  }

  lemma ReplanKeepsTask(b: Body, g: Git)
    requires WellFormed(g) && TaskFits(b, g, AwaitingInput)
    ensures KeepsTask(OperatorReplan(b, g), b, AwaitingInput)
  {
  }

  lemma PrepareKeepsTask(b: Body, g: Git, i: StepInput)
    requires WellFormed(g) && TaskFits(b, g, AwaitingInput)
    ensures KeepsTask(PrepareRecordDecision(b, AwaitingInput, g, i), b, AwaitingInput)
  {
  }

  lemma DispatchKeepsTask(d: Doc, g: Git, i: StepInput)
    requires CarriedDoc(d, g) && InputFits(d.body, g, i) && !IsTerminal(d.phase)
    ensures KeepsTask(Dispatch(d, g, i), d.body, EffectivePhase(d))
  {
    match d.phase
    case Planning => PlanningKeepsTask(d.body, g, i);
    case Architecting => ArchitectingKeepsTask(d.body, g, i);
    case Building => BuildingKeepsTask(d.body, g, i);
    case Verifying => VerifyingKeepsTask(d.body, g, i);
    case Auditing => AuditingKeepsTask(d.body, g, i);
    case AwaitingInput => if i.answer.Some? { ResolvingKeepsTask(d.body, g, i.answer.value, i); }
    case CreatingWorktree => CreatingKeepsTask(d.body, g, i);
    case RecordingDecision => RecordingKeepsTask(d.body, g, i);
    case Merging => MergingKeepsTask(d.body, g, i);
    case CleanupWorktree => CleanupWorktreeKeepsTask(d.body, g, i);
    case CleanupBranch => CleanupBranchKeepsTask(d.body, g, i);
    case OperationalFailure =>
  }

  // --------------------------------------------------------------- the plan

  /** Where a dispatch leads, as far as the plan goes. */
  predicate PlanFollows(x: Dispatched, p: Phase) {
    match x.raise
    case NoRaise => IsTerminal(x.phase) || PlanKept(x.body, x.phase)
    case InputRequired => PlanKept(x.body, x.phase)
    case Operational(f) => PlanKept(x.body, RetryPhaseFor(f.kind, p))
    case _ => true
  }

  predicate ValidReply(i: StepInput) {
    i.planner.Replied? ==> ValidPlanner(i.planner.value)
  }

  lemma PlanningFollows(b: Body, g: Git, i: StepInput)
    requires HasMain(g) && ValidReply(i)
    ensures PlanFollows(DoPlanning(b, g, i), Planning)
  {
  }

  lemma CreatingFollows(b: Body, g: Git, i: StepInput)
    requires HasMain(g) && PlanComplete(b.results)
    ensures PlanFollows(DoCreatingWorktree(b, g, i), CreatingWorktree)
  {
  }

  lemma ArchitectingFollows(b: Body, g: Git, i: StepInput)
    requires HasMain(g) && PlanComplete(b.results)
    ensures PlanFollows(DoArchitecting(b, g, i), Architecting)
  {
  }

  lemma RecordingFollows(b: Body, g: Git, i: StepInput)
    requires HasMain(g) && PlanComplete(b.results)
    ensures PlanFollows(DoRecordingDecision(b, g, i), RecordingDecision)
  {
  }

  lemma BuildingFollows(b: Body, g: Git, i: StepInput)
    requires HasMain(g) && PlanComplete(b.results)
    ensures PlanFollows(DoBuilding(b, g, i), Building)
  {
  }

  lemma AuditingFollows(b: Body, g: Git, i: StepInput)
    requires HasMain(g) && PlanComplete(b.results)
    ensures PlanFollows(DoAuditing(b, g, i), Auditing)
  {
  }

  lemma ResolvingFollows(b: Body, g: Git, answer: string, i: StepInput)
    requires PlanComplete(b.results)
    ensures PlanFollows(ResolveInput(b, g, answer, i), AwaitingInput)
  {
  }

  lemma CheckingFollows(b: Body, g: Git, i: StepInput)
    requires HasMain(g) && |i.runs| == |b.options.verifyCommands| && PlanComplete(b.results)
    ensures PlanFollows(DoVerifying(b, g, i), Verifying) && PlanFollows(DoMerging(b, g, i), Merging)
  {
  }

  lemma CleanupFollows(b: Body, g: Git, i: StepInput)
    requires HasMain(g) && PlanComplete(b.results)
    ensures PlanFollows(DoCleanupWorktree(b, g, i), CleanupWorktree) && PlanFollows(DoCleanupBranch(b, g, i), CleanupBranch)
  {
  }

  /** Every phase leaves a complete plan, or goes back to planning. */
  lemma DispatchFollowsPlan(d: Doc, g: Git, i: StepInput)
    requires HasMain(g) && |i.runs| == |d.body.options.verifyCommands| && !IsTerminal(d.phase)
    requires ValidReply(i) && PlanKept(d.body, EffectivePhase(d))
    ensures PlanFollows(Dispatch(d, g, i), d.phase)
  {
    match d.phase
    case Planning => PlanningFollows(d.body, g, i);
    case CreatingWorktree => CreatingFollows(d.body, g, i);
    case Architecting => ArchitectingFollows(d.body, g, i);
    case RecordingDecision => RecordingFollows(d.body, g, i);
    case Building => BuildingFollows(d.body, g, i);
    case Auditing => AuditingFollows(d.body, g, i);
    case AwaitingInput => if i.answer.Some? { ResolvingFollows(d.body, g, i.answer.value, i); }
    case OperationalFailure =>
    case Verifying => CheckingFollows(d.body, g, i);
    case Merging => CheckingFollows(d.body, g, i);
    case _ => CleanupFollows(d.body, g, i);
  }

  // ------------------------------------------------------ what is persisted

  /** Where a dispatch ends that is not to be given up: in a phase with its limits kept. */
  predicate Goes(x: Dispatched, d: Doc, p: Phase) {
    && (x.raise.NoRaise? ==> if x.phase.Done? then p.Planning? && d.phase.Planning? && Bounded(x.body, p) else Bounded(x.body, x.phase))
    && (x.raise.InputRequired? ==> Bounded(x.body, x.phase) && x.phase.AwaitingInput?)
    && (x.raise.Operational? ==>
          && p == d.phase && x.phase == p && Bounded(x.body, p)
          && RetryPhaseFor(x.raise.fault.kind, p) == p)
  }

  lemma DispatchGoes(d: Doc, g: Git, i: StepInput)
    requires CarriedDoc(d, g) && |i.runs| == |d.body.options.verifyCommands| && !IsTerminal(d.phase)
    ensures Goes(Dispatch(d, g, i), d, EffectivePhase(d))
  {
    if !d.phase.OperationalFailure? && !Unanswered(d, i) {
      DispatchDescends(d, g, i);
    }
  }

  /** What a written document holds. */
  predicate Records(e: Doc, d: Doc, x: Dispatched) {
    && e.body == x.body
    && (e.operationalRetries == d.operationalRetries || e.operationalRetries == 0)
    && match x.raise
       case NoRaise =>
         e.phase == x.phase || (e.phase.OperationalFailure? && RetriedIn(e, if IsTerminal(x.phase) then d.phase else x.phase))
       case InputRequired => e.phase == x.phase
       case Operational(f) => e.phase.OperationalFailure? && e.lastError == Some(FailureRecord(f, d.phase))
       case LoopFailure(_) => e.phase.Failed?
       case Escapes => false
  }

  predicate RetriedIn(e: Doc, p: Phase) {
    && e.lastError.Some? && e.lastError.value.retryable
    && e.lastError.value.failedPhase == p && e.lastError.value.retryPhase == Some(p)
  }

  lemma ConclusionRecords(d: Doc, x: Dispatched, i: StepInput)
    requires HasMain(x.git)
    ensures Concluded(d, x, i).disk.Some? ==> Records(Concluded(d, x, i).disk.value, d, x)
  {
  }

  lemma RecordedIsCarried(e: Doc, d: Doc, x: Dispatched)
    requires RetriesOk(d) && !IsTerminal(d.phase) && WellFormed(x.git) && Records(e, d, x)
    requires KeepsTask(x, d.body, EffectivePhase(d)) && Goes(x, d, EffectivePhase(d)) && Bounded(d.body, EffectivePhase(d))
    requires TaskWhole(d.body.task) && PlanFollows(x, d.phase)
    ensures CarriedDoc(e, x.git)
  {
  }

  /** What one `advance()` call persists is carried on from, whatever the environment did. */
  lemma AdvanceCarries(d: Doc, g: Git, i: StepInput)
    requires CarriedDoc(d, g) && InputFits(d.body, g, i) && !IsTerminal(d.phase) && WellFormed(Dispatch(d, g, i).git)
    requires Concluded(d, Dispatch(d, g, i), i).disk.Some?
    ensures CarriedDoc(Concluded(d, Dispatch(d, g, i), i).disk.value, Dispatch(d, g, i).git)
  {
    var x := Dispatch(d, g, i);
    DispatchKeepsTask(d, g, i);
    DispatchGoes(d, g, i);
    DispatchFollowsPlan(d, g, i);
    ConclusionRecords(d, x, i);
    RecordedIsCarried(Concluded(d, x, i).disk.value, d, x);
  }

  /** A step that is never saved leaves the document on disk as good as it was. */
  lemma EffectCarries(d: Doc, g: Git, i: StepInput)
    requires CarriedDoc(d, g) && InputFits(d.body, g, i) && !IsTerminal(d.phase) && WellFormed(Dispatch(d, g, i).git)
    ensures CarriedDoc(d, Dispatch(d, g, i).git)
  {
    EffectKeepsBranch(d, g, i);
  }

  lemma EffectKeepsBranch(d: Doc, g: Git, i: StepInput)
    requires CarriedDoc(d, g) && InputFits(d.body, g, i) && !IsTerminal(d.phase)
    ensures OnItsBranch(d.body.task, Dispatch(d, g, i).git)
  {
    var b := d.body;
    if !RunsNoAgent(d.phase) {
      AgentOnlyEdits(d, g, i);
      EditKeepsBranch(b.task, g, i.edit);
    } else {
      match d.phase
      case Merging =>
        MergingOnlyMerges(b, g, i);
        if b.intents.mergePre.Some? && b.intents.mergeTask.Some? {
          MergeKeepsBranch(b.task, g, b.intents.mergePre.value, b.intents.mergeTask.value, i.merge);
        }
      case RecordingDecision => RecordingKeepsBranch(b, g, i);
      case CleanupWorktree => CleanupWorktreeKeepsBranch(b, g, i);
      case CleanupBranch => CleanupBranchKeepsBranch(b, g, i);
      case _ =>
    }
  }

  lemma RecordingKeepsBranch(b: Body, g: Git, i: StepInput)
    requires WellFormed(g) && OnItsBranch(b.task, g)
    ensures OnItsBranch(b.task, DoRecordingDecision(b, g, i).git)
  {
  }

  lemma CleanupWorktreeKeepsBranch(b: Body, g: Git, i: StepInput)
    requires WellFormed(g) && OnItsBranch(b.task, g)
    ensures OnItsBranch(b.task, DoCleanupWorktree(b, g, i).git)
  {
  }

  lemma CleanupBranchKeepsBranch(b: Body, g: Git, i: StepInput)
    requires WellFormed(g) && OnItsBranch(b.task, g)
    ensures OnItsBranch(b.task, DoCleanupBranch(b, g, i).git)
  {
  }

  /** Counting a retry, and recording a failed startup, too. */
  lemma CountedRetryCarries(d: Doc, g: Git, save: SaveChoice)
    requires CarriedDoc(d, g) && MayRetry(d) && CountRetry(d, g, save).GoesOn?
    ensures CarriedDoc(CountRetry(d, g, save).doc, g)
  {
    CountedRetryKeeps(d, g, save);
  }

  lemma StartupFailureCarries(d: Doc, g: Git, message: string, save: SaveChoice)
    requires CarriedDoc(d, g) && !IsTerminal(d.phase)
    ensures var s := StartupFailure(d, g, message, save);
      s.disk.Some? ==> CarriedDoc(s.disk.value, g)
  {
  }
}
