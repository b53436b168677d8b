/** The invariant every persisted state keeps, and how saving restores it. */
module Invariant {
  import opened Text
  import opened Document
  import opened Repository
  import opened Decisions
  import opened Transitions

  // ------------------------------------------------------------- invariant

  /** A task in hand, or a worktree about to be made for one, is within the task limit. */
  predicate TaskBudgetOk(b: Body) {
    && b.counters.accepted <= b.options.maxAcceptedTasks
    && (!NoTask(b.task) || b.intents.treePath.Some? ==> b.counters.accepted < b.options.maxAcceptedTasks)
  }

  /** Limits and budgets that hold while a run is not terminal. */
  predicate WithinBudgets(b: Body) {
    && TaskBudgetOk(b)
    && b.counters.revisions <= b.options.maxRevisions
    && b.counters.replans <= b.options.maxReplans
  }

  /** What a run between tasks no longer carries. */
  predicate NothingRetained(b: Body) {
    && b.results.architect.None? && b.results.builder.None? && b.results.auditor.None?
    && b.results.verification.None? && b.results.decision.None?
    && b.question.None? && b.lastTaskHead.None?
    && b.counters.revisions == 0 && b.counters.replans == 0
    && b.counters.architectRetries == 0 && b.counters.guidance == 0
  }

  /** The decision to record is the architect's, bound for an allowed file of the task worktree. */
  predicate TargetFixed(b: Body) {
    && b.intents.adrPath.Some? && ValidTarget(OrEmpty(b.task.path), b.intents.adrPath.value)
    && b.results.architect.Some? && b.results.architect.value.adr.Some?
    && b.intents.adrHash == Some(Rendered(b.results.architect.value.adr.value))
  }

  /** Facts about the recorded results beyond those the reader checks. */
  predicate Strengthening(b: Body, p: Phase) {
    && (NoTask(b.task) || (FullTask(b.task) && b.intents.treePath.None?))
    && (NoTask(b.task) ==> (p.Planning? || p.CreatingWorktree?) && NothingRetained(b))
    && (p.Planning? ==> b.results.builder.None?)
    && (p.RecordingDecision? ==> TargetFixed(b))
    && (b.results.decision.Some? ==>
          (p.Architecting? || p.RecordingDecision? || p.AwaitingInput?) && b.results.builder.None?)
  }

  /** Everything about a body that a save does not refresh, for effective phase `p`. */
  predicate Settled(b: Body, p: Phase) {
    && IsRetryTarget(p)
    && BodyOk(b)
    && PhaseFacts(b, p)
    && QuestionAllowed(b, p)
    && Strengthening(b, p)
    && WithinBudgets(b)
  }

  predicate RetriesOk(d: Doc) {
    0 <= d.operationalRetries <= d.body.options.maxOperationalRetries
  }

  /** The task worktree is where the document says, with the verified commit at its HEAD
      once the builder is done. Cleanup may find the worktree already gone. */
  predicate WorktreeAgrees(b: Body, g: Git, p: Phase) {
    FullTask(b.task) ==>
      && b.task.branch.value != g.mainBranch
      && b.task.path.value !in g.strays
      && (b.task.path.value in g.trees ==>
            && !p.CleanupBranch?
            && g.trees[b.task.path.value].branch == b.task.branch.value
            && (IsPostBuild(p) ==> HeadAt(g, b.task.path.value) == b.lastTaskHead))
      && (b.task.path.value in g.trees || p.CleanupWorktree? || p.CleanupBranch?)
  }

  /** A document ready to be saved with effective phase `p`. */
  predicate Saveable(d: Doc, g: Git, p: Phase) {
    && WellFormed(g)
    && Settled(d.body, p)
    && WorktreeAgrees(d.body, g, p)
    && RetriesOk(d)
    && (p.CleanupBranch? ==> d.checkpoints.taskHead == d.body.lastTaskHead)
  }

  /** A body that may be saved as failed while in phase `failedPhase`. */
  predicate FailureSaveable(b: Body, failedPhase: Phase) {
    && BodyOk(b)
    && (b.question.Some? ==> GuidanceFor(b.results, b.question.value, failedPhase))
    && (NoTask(b.task) || FullTask(b.task))
    && TaskBudgetOk(b)
  }

  predicate DoneSaveable(b: Body) {
    && BodyOk(b)
    && b.question.None? && NoTask(b.task)
    && TaskBudgetOk(b)
  }

  /** A state at rest: what is on disk between two steps. */
  predicate AtRest(d: Doc, g: Git) {
    && WellFormed(g)
    && Loads(d)
    && RetriesOk(d)
    && TaskBudgetOk(d.body)
    && (d.lastError.Some? ==> d.phase.OperationalFailure? || d.phase.Failed?)
    && (!IsTerminal(d.phase) ==> Settled(d.body, EffectivePhase(d)) && WorktreeAgrees(d.body, g, EffectivePhase(d)))
  }

  lemma AtRestIsSaveable(d: Doc, g: Git)
    requires AtRest(d, g) && !IsTerminal(d.phase)
    ensures Saveable(d, g, EffectivePhase(d))
  {
  }

  // ---------------------------------------------------------- saving lemmas

  lemma HeadIsCanonical(g: Git, path: string)
    requires WellFormed(g) && HeadAt(g, path).Some?
    ensures IsCanonicalCommit(HeadAt(g, path).value) && HeadAt(g, path).value in g.commits
  {
  }

  lemma MainIsCanonical(g: Git)
    requires WellFormed(g)
    ensures IsCanonicalCommit(MainHead(g)) && MainHead(g) in g.commits
  {
  }

  /** Whatever the environment does to a save, what reaches the disk is at rest. */
  lemma SavedIsAtRest(d: Doc, g: Git, p: Phase)
    requires Saveable(d, g, p) && EffectivePhase(d) == p && !IsTerminal(d.phase) && ErrorOk(d.phase, d.lastError)
    requires !d.phase.OperationalFailure? ==> d.lastError.None?
    requires Checkpoint(d, g).Some?
    ensures AtRest(Checkpoint(d, g).value, g)
    ensures EffectivePhase(Checkpoint(d, g).value) == p
    ensures Checkpoint(d, g).value.phase == d.phase
  {
    var c := Checkpoint(d, g).value;
    MainIsCanonical(g);
    if d.body.task.path.Some? && HeadAt(g, d.body.task.path.value).Some? {
      HeadIsCanonical(g, d.body.task.path.value);
    }
    assert TaskIdentityOk(c.body.task, c.checkpoints, p.CleanupBranch?);
    assert PhaseRequirements(c.body, c.checkpoints, p);
  }

  lemma FailedIsAtRest(d: Doc, g: Git)
    requires WellFormed(g) && d.phase.Failed? && d.lastError.Some? && ErrorOk(Failed, d.lastError) && RetriesOk(d)
    requires FailureSaveable(d.body, d.lastError.value.failedPhase)
    requires Checkpoint(d, g).Some?
    ensures AtRest(Checkpoint(d, g).value, g)
  {
    MainIsCanonical(g);
    if d.body.task.path.Some? {
      HeadIsCanonical(g, d.body.task.path.value);
    }
  }

  lemma DoneIsAtRest(d: Doc, g: Git)
    requires WellFormed(g) && d.phase.Done? && d.lastError.None? && DoneSaveable(d.body) && RetriesOk(d)
    ensures Checkpoint(d, g).Some? && AtRest(Checkpoint(d, g).value, g)
  {
    MainIsCanonical(g);
  }
}
