/** `Supervisor`: the phases as they change the run state field by field, `advance()` and the
    loop over it. Each method is proved to be the transition function of the same name. */
module Supervision {
  import opened Text
  import opened Contracts
  import opened Document
  import opened Repository
  import opened Decisions
  import opened Transitions
  import opened Invariant
  import opened RepositoryFacts
  import opened PhaseSteps
  import opened Closure
  import opened Conservation
  import opened Termination
  import opened Carrying
  import opened RunLoop
  import opened State
  import opened GitCommands
  import opened Commands

  datatype TaskWorktree = TaskWorktree(path: string, branch: string)

  /** The state and repository after a phase method are those of dispatch `x`. */
  predicate Matches(state: RunState, before: Doc, g: Git, raise: Raise, x: Dispatched)
    reads state
  {
    state.ToDict() == before.(body := x.body, phase := x.phase) && g == x.git && raise == x.raise
  }

  /** What one `advance()` call keeps, from document `d` and repository `g` to `e` and `h`: commits and
      dirty worktrees, every reachable commit unless an agent left its old tip behind, the limits;
      and what it persists can be read back if and only if the phase met its guard. */
  ghost predicate StepKeeps(d: Doc, g: Git, i: StepInput, e: Doc, h: Git, returned: bool) {
    && (WellFormed(g) && InputFits(d.body, g, i) ==>
          Preserves(g, h) && (RefsKept(g, h) <==> TipKept(d.body.task, g, h)))
    && (CarriedDoc(d, g) && InputFits(d.body, g, i) && returned ==> CarriedDoc(e, h))
    && (AtRest(d, g) && InputFits(d.body, g, i) && NonEmptyMessages(i) && returned && !IsTerminal(d.phase) ==>
          (Loads(e) <==> PhaseGuard(d, g, i)) && (PhaseGuard(d, g, i) ==> AtRest(e, h)))
  }

  lemma ConservedByAdvance(d: Doc, g: Git, i: StepInput)
    requires WellFormed(g) && InputFits(d.body, g, i)
    ensures var h := Transitions.Advance(d, g, i).git;
      Preserves(g, h) && (RefsKept(g, h) <==> TipKept(d.body.task, g, h))
  {
    if IsTerminal(d.phase) {
      NothingConserves(g);
      KeptRefsKeepTip(d.body.task, g, g);
    } else {
      DispatchConserves(d, g, i);
    }
  }

  lemma CarriedByAdvance(d: Doc, g: Git, i: StepInput)
    requires CarriedDoc(d, g) && InputFits(d.body, g, i)
    ensures var s := Transitions.Advance(d, g, i);
      s.result.Returned? ==> CarriedDoc(s.mem, s.git)
  {
    if !IsTerminal(d.phase) {
      DispatchConserves(d, g, i);
      if Concluded(d, Dispatch(d, g, i), i).result.Returned? {
        ReturnedIsWritten(d, Dispatch(d, g, i), i);
        AdvanceCarries(d, g, i);
      }
    }
  }

  lemma RestedByAdvance(d: Doc, g: Git, i: StepInput)
    requires AtRest(d, g) && InputFits(d.body, g, i) && NonEmptyMessages(i) && !IsTerminal(d.phase)
    ensures var s := Transitions.Advance(d, g, i);
      s.result.Returned? ==> (Loads(s.mem) <==> PhaseGuard(d, g, i)) && (PhaseGuard(d, g, i) ==> AtRest(s.mem, s.git))
  {
    if Concluded(d, Dispatch(d, g, i), i).result.Returned? {
      ReturnedIsWritten(d, Dispatch(d, g, i), i);
      PersistedLoadsExactly(d, g, i);
      if PhaseGuard(d, g, i) {
        AdvanceRests(d, g, i);
      }
    }
  }

  lemma AdvanceKeeps(d: Doc, g: Git, i: StepInput)
    requires HasMain(g) && |i.runs| == |d.body.options.verifyCommands|
    ensures var s := Transitions.Advance(d, g, i);
      StepKeeps(d, g, i, s.mem, s.git, s.result.Returned?)
  {
    if WellFormed(g) && InputFits(d.body, g, i) {
      ConservedByAdvance(d, g, i);
      if CarriedDoc(d, g) {
        CarriedByAdvance(d, g, i);
      }
      if AtRest(d, g) && NonEmptyMessages(i) && !IsTerminal(d.phase) {
        RestedByAdvance(d, g, i);
      }
    }
  }

  class Supervisor {
    const repo: GitRepo
    var activeWorktree: Option<TaskWorktree>
    // The state file.
    var disk: Option<Doc>

    constructor (repo: GitRepo)
      ensures this.repo == repo && activeWorktree.None? && disk.None?
    {
      this.repo := repo;
      activeWorktree := None;
      disk := None;
    }

    /** A cached worktree is the one the state records. */
    predicate CacheAgrees(state: RunState)
      reads this, state
    {
      activeWorktree.Some? ==>
        state.task.path == Some(activeWorktree.value.path) && state.task.branch == Some(activeWorktree.value.branch)
    }

    predicate Ready(state: RunState)
      reads this, repo, state
    {
      HasMain(repo.git) && CacheAgrees(state)
    }

    /** `_require_worktree`, or None where it raises. */
    method RequireWorktree(state: RunState) returns (worktree: Option<TaskWorktree>)
      requires CacheAgrees(state)
      modifies this`activeWorktree
      ensures CacheAgrees(state)
      ensures worktree == if HasWorktree(state.task)
                          then Some(TaskWorktree(state.task.path.value, state.task.branch.value)) else None
    {
      if activeWorktree.Some? {
        return activeWorktree;
      }
      if state.task.path.None? || state.task.branch.None? {
        return None;
      }
      activeWorktree := Some(TaskWorktree(state.task.path.value, state.task.branch.value));
      return activeWorktree;
    }

    /** `run_agent`: the agent works in a directory and leaves its edit behind. */
    method RunAgent(directory: string, edit: Edit)
      modifies repo
      ensures repo.git == ApplyEdit(old(repo.git), directory, edit)
    {
      repo.git := ApplyEdit(repo.git, directory, edit);
    }

    method DoPlanning(state: RunState, i: StepInput) returns (raise: Raise)
      requires Ready(state) && state.phase.Planning?
      modifies this`activeWorktree, state, repo
      ensures Matches(state, old(state.ToDict()), repo.git, raise,
                      Transitions.DoPlanning(old(state.BodyFields()), old(repo.git), i))
      ensures Ready(state)
    {
      if state.counters.accepted >= state.options.maxAcceptedTasks {
        state.phase := Done;
        return NoRaise;
      }
      if state.task.path.Some? {
        RunAgent(state.task.path.value, i.edit);
      }
      if i.planner.AgentFailed? {
        return AgentRaise(i.planner.kind, i.planner.message);
      }
      var result := i.planner.value;
      state.results := state.results.(planner := Some(result));
      if result.status.NoMoreWork? {
        if state.task.path.Some? {
          return LoopFailure(TaskStillActive);
        }
        state.phase := Done;
        return NoRaise;
      }
      if state.task.path.None? {
        var taskId := OrEmpty(result.taskId);
        if Sanitize(taskId) == "" {
          return GitRaise(Own(EmptyTaskId));
        }
        state.intents := state.intents.(treePath := Some(WorktreePathFor(repo.git, taskId)));
        state.intents := state.intents.(treeBranch := Some(BranchFor(taskId)));
        if i.gitBefore.Some? {
          return GitRaise(Reported(i.gitBefore.value));
        }
        state.intents := state.intents.(treeBase := Some(MainHead(repo.git)));
        state.phase := CreatingWorktree;
        return NoRaise;
      }
      StartOnTask(state, result);
      return NoRaise;
    }

    /** The common end of planning with a task and of creating its worktree. */
    method StartOnTask(state: RunState, planner: PlannerResult)
      modifies state
      ensures Matches(state, old(state.ToDict()), repo.git, NoRaise,
                      StartTask(old(state.BodyFields()), repo.git, planner))
    {
      state.counters := state.counters.(revisions := 0);
      state.counters := state.counters.(guidance := 0);
      if planner.decisionRequired {
        state.results := state.results.(decision := Some(RequestFromPlanner(planner)));
        state.phase := Architecting;
      } else {
        state.phase := Building;
      }
    }

    method DoCreatingWorktree(state: RunState, i: StepInput) returns (raise: Raise)
      requires Ready(state) && state.phase.CreatingWorktree?
      modifies this`activeWorktree, state, repo
      ensures Matches(state, old(state.ToDict()), repo.git, raise,
                      Transitions.DoCreatingWorktree(old(state.BodyFields()), old(repo.git), i))
      ensures Ready(state)
    {
      if state.intents.treePath.None? || state.intents.treeBranch.None? || state.intents.treeBase.None? {
        return LoopFailure(NoWorktreeIntent);
      }
      if state.results.planner.None? {
        return LoopFailure(NoPlannerResult);
      }
      var planner := state.results.planner.value;
      if OrEmpty(planner.taskId) == "" {
        return LoopFailure(NoTaskId);
      }
      if i.gitBefore.Some? {
        return GitRaise(Reported(i.gitBefore.value));
      }
      var failure := repo.CreateOrReconcileTaskWorktree(OrEmpty(planner.taskId), state.intents.treePath.value,
                                                        state.intents.treeBranch.value, state.intents.treeBase.value);
      if failure.Some? {
        return GitRaise(Own(failure.value));
      }
      if state.options.provisionCommands != [] && i.provisionFault.Some? {
        return Operational(Fault(ProvisioningKind, Reported(i.provisionFault.value)));
      }
      var path, branch := state.intents.treePath.value, state.intents.treeBranch.value;
      state.task := Task(planner.taskId, Some(path), Some(branch), state.intents.treeBase);
      state.intents := state.intents.(treePath := None);
      state.intents := state.intents.(treeBranch := None);
      state.intents := state.intents.(treeBase := None);
      activeWorktree := Some(TaskWorktree(path, branch));
      StartOnTask(state, planner);
      return NoRaise;
    }

    /** `_prepare_record_decision`, with the pending question dropped once it has succeeded. */
    method PrepareRecordDecision(state: RunState, i: StepInput) returns (raise: Raise)
      modifies state
      ensures Matches(state, old(state.ToDict()), repo.git, raise,
                      Transitions.PrepareRecordDecision(old(state.BodyFields()), old(state.phase), repo.git, i))
      ensures state.task.path == old(state.task.path) && state.task.branch == old(state.task.branch)
    {
      if state.results.architect.None? {
        return LoopFailure(NoArchitectResult);
      }
      if state.results.decision.None? {
        return LoopFailure(NoDecision);
      }
      if state.results.architect.value.adr.None? {
        return LoopFailure(NoAdr);
      }
      if i.adrFault.Some? {
        return DecisionRaise(Reported(i.adrFault.value));
      }
      var adr := state.results.architect.value.adr.value;
      var directory := OrEmpty(state.task.path);
      var target := NextTarget(repo.git, directory, adr);
      if !ValidTarget(directory, target) {
        return DecisionRaise(Own(TargetNotAllowed));
      }
      state.intents := state.intents.(adrPath := Some(target));
      state.intents := state.intents.(adrHash := Some(Rendered(adr)));
      state.phase := RecordingDecision;
      state.question := None;
      return NoRaise;
    }

    method DoArchitecting(state: RunState, i: StepInput) returns (raise: Raise)
      requires Ready(state) && state.phase.Architecting?
      modifies this`activeWorktree, state, repo
      ensures Matches(state, old(state.ToDict()), repo.git, raise,
                      Transitions.DoArchitecting(old(state.BodyFields()), old(repo.git), i))
      ensures Ready(state)
    {
      if state.results.decision.None? {
        return LoopFailure(NoDecision);
      }
      if state.task.path.Some? {
        RunAgent(state.task.path.value, i.edit);
      }
      if i.architect.AgentFailed? {
        return AgentRaise(i.architect.kind, i.architect.message);
      }
      var result := i.architect.value;
      if result.question != state.results.decision.value.question {
        return ContractRaise(OtherQuestion);
      }
      state.results := state.results.(architect := Some(result));
      if result.status.NeedsInput? {
        raise := AskForInput(state, result);
        return;
      }
      if result.adr.None? {
        return Escapes;
      }
      if state.options.requireApproval {
        var adr := result.adr.value;
        state.question := Some(PendingQuestion(DecisionApproval, Own(ApproveDecision), AboutAdr(adr.title, adr.decision), None));
        state.phase := AwaitingInput;
        return InputRequired;
      }
      raise := PrepareRecordDecision(state, i);
    }

    method AskForInput(state: RunState, result: ArchitectResult) returns (raise: Raise)
      requires state.results.decision.Some? && state.phase.Architecting?
      modifies state
      ensures Matches(state, old(state.ToDict()), repo.git, raise,
                      AskArchitectInput(old(state.BodyFields()), repo.git, result))
      ensures state.task == old(state.task)
    {
      state.counters := state.counters.(architectRetries := state.counters.architectRetries + 1);
      if state.counters.architectRetries > state.options.maxArchitectRetries {
        return LoopFailure(TooManyRetries);
      }
      var message := if OrEmpty(result.inputRequest) != "" then Reported(OrEmpty(result.inputRequest)) else Own(NeedInput);
      state.question := Some(PendingQuestion(ArchitectInput, message, AboutQuestion(state.results.decision.value.question), None));
      state.phase := AwaitingInput;
      return NoRaise;
    }

    method DoRecordingDecision(state: RunState, i: StepInput) returns (raise: Raise)
      requires Ready(state) && state.phase.RecordingDecision?
      modifies this`activeWorktree, state, repo
      ensures Matches(state, old(state.ToDict()), repo.git, raise,
                      Transitions.DoRecordingDecision(old(state.BodyFields()), old(repo.git), i))
      ensures Ready(state)
    {
      if state.results.architect.None? {
        return LoopFailure(NoArchitectResult);
      }
      if state.results.decision.None? {
        return LoopFailure(NoDecision);
      }
      if state.intents.adrPath.None? || state.intents.adrHash.None? {
        return LoopFailure(NoAdrIntent);
      }
      if state.results.architect.value.adr.None? {
        return LoopFailure(NoAdr);
      }
      if i.adrFault.Some? {
        return DecisionRaise(Reported(i.adrFault.value));
      }
      var wrote := WriteAdr(repo.git, OrEmpty(state.task.path), state.results.architect.value.adr.value,
                            state.intents.adrPath.value, state.intents.adrHash.value, i.adrLine);
      if !wrote.Ok? {
        return DecisionRaise(Own(wrote.reason));
      }
      repo.git := wrote.value;
      var origin := state.results.decision.value.origin;
      state.intents := state.intents.(adrPath := None, adrHash := None);
      state.results := state.results.(decision := None);
      state.counters := state.counters.(architectRetries := 0);
      state.phase := if origin.FromPlanner? then Building else Planning;
      return NoRaise;
    }

    method DoBuilding(state: RunState, i: StepInput) returns (raise: Raise)
      requires Ready(state) && state.phase.Building?
      modifies this`activeWorktree, state, repo
      ensures Matches(state, old(state.ToDict()), repo.git, raise,
                      Transitions.DoBuilding(old(state.BodyFields()), old(repo.git), i))
      ensures Ready(state)
    {
      if state.results.planner.None? {
        return LoopFailure(NoPlannerResult);
      }
      var worktree := RequireWorktree(state);
      if worktree.None? {
        return LoopFailure(NoWorktree);
      }
      RunAgent(worktree.value.path, i.edit);
      if i.builder.AgentFailed? {
        return AgentRaise(i.builder.kind, i.builder.message);
      }
      var result := i.builder.value;
      if !SameTask(OrEmpty(state.results.planner.value.taskId), result.taskId, result.objective) {
        return ContractRaise(IdentityDrift);
      }
      state.results := state.results.(builder := Some(result));
      if result.status.Complete? {
        raise := VerifyBuild(state, result, i);
        return;
      }
      state.counters := state.counters.(guidance := state.counters.guidance + 1);
      var kind := if state.counters.guidance > state.options.maxGuidanceAttempts then BuilderEscalation else BuilderGuidance;
      state.question := Some(PendingQuestion(kind, Own(GiveGuidance), AboutStatus(result.status), None));
      state.phase := AwaitingInput;
      return NoRaise;
    }

    /** The COMPLETE branch of building. */
    method VerifyBuild(state: RunState, result: BuilderResult, i: StepInput) returns (raise: Raise)
      requires HasWorktree(state.task) && state.phase.Building?
      modifies state
      ensures Matches(state, old(state.ToDict()), repo.git, raise,
                      FinishBuild(old(state.BodyFields()), repo.git, result, i))
      ensures state.task == old(state.task)
    {
      if OrEmpty(result.commit) == "" {
        return LoopFailure(NoCommitHash);
      }
      if i.gitBefore.Some? {
        return GitRaise(Reported(i.gitBefore.value));
      }
      var verified := Verified(state.BodyFields(), repo.git, result);
      if !verified.Ok? {
        return GitRaise(Own(verified.reason));
      }
      state.lastTaskHead := Some(verified.value);
      state.question := None;
      state.counters := state.counters.(guidance := 0);
      state.phase := if state.options.verifyCommands != [] then Verifying else Auditing;
      return NoRaise;
    }

    method DoVerifying(state: RunState, i: StepInput) returns (raise: Raise)
      requires Ready(state) && state.phase.Verifying? && |i.runs| == |state.options.verifyCommands|
      modifies this`activeWorktree, state, repo
      ensures Matches(state, old(state.ToDict()), repo.git, raise,
                      Transitions.DoVerifying(old(state.BodyFields()), old(repo.git), i))
      ensures Ready(state)
    {
      var worktree := RequireWorktree(state);
      if worktree.None? {
        return LoopFailure(NoWorktree);
      }
      if i.gitBefore.Some? {
        return GitRaise(Reported(i.gitBefore.value));
      }
      var results := RunCommands(state.options.verifyCommands, i.runs, false);
      RunAgent(worktree.value.path, i.edit);
      var summary := SummarizeVerification(state.options.verifyCommands, results);
      state.results := state.results.(verification := Some(summary));
      state.phase := Auditing;
      return NoRaise;
    }

    method DoAuditing(state: RunState, i: StepInput) returns (raise: Raise)
      requires Ready(state) && state.phase.Auditing?
      modifies this`activeWorktree, state, repo
      ensures Matches(state, old(state.ToDict()), repo.git, raise,
                      Transitions.DoAuditing(old(state.BodyFields()), old(repo.git), i))
      ensures Ready(state)
    {
      if state.results.planner.None? {
        return LoopFailure(NoPlannerResult);
      }
      var worktree := RequireWorktree(state);
      if worktree.None? {
        return LoopFailure(NoWorktree);
      }
      if i.gitBefore.Some? {
        return GitRaise(Reported(i.gitBefore.value));
      }
      RunAgent(worktree.value.path, i.edit);
      if i.auditor.AgentFailed? {
        return AgentRaise(i.auditor.kind, i.auditor.message);
      }
      var result := i.auditor.value;
      if !SameTask(OrEmpty(state.results.planner.value.taskId), result.taskId, result.objective) {
        return ContractRaise(IdentityDrift);
      }
      state.results := state.results.(auditor := Some(result));
      raise := FollowVerdict(state, result, i);
    }

    method FollowVerdict(state: RunState, result: AuditorResult, i: StepInput) returns (raise: Raise)
      requires HasMain(repo.git) && HasWorktree(state.task) && state.phase.Auditing?
      modifies state
      ensures Matches(state, old(state.ToDict()), repo.git, raise,
                      match result.disposition
                      case Accept => AcceptTask(old(state.BodyFields()), repo.git, i)
                      case Revise => ReviseTask(old(state.BodyFields()), repo.git)
                      case Replan => ReplanTask(old(state.BodyFields()), repo.git, result))
      ensures state.task == old(state.task)
    {
      match result.disposition {
        case Accept =>
          if i.gitAfter.Some? {
            return GitRaise(Reported(i.gitAfter.value));
          }
          state.intents := state.intents.(mergePre := Some(MainHead(repo.git)));
          var head := HeadAt(repo.git, state.task.path.value);
          if head.None? {
            return GitRaise(Own(HeadUnreadable));
          }
          state.intents := state.intents.(mergeTask := head);
          state.phase := Merging;
        case Revise =>
          state.counters := state.counters.(revisions := state.counters.revisions + 1);
          if state.counters.revisions > state.options.maxRevisions {
            return LoopFailure(TooManyRevisions);
          }
          state.results := state.results.(verification := None);
          state.phase := Building;
        case Replan =>
          state.counters := state.counters.(replans := state.counters.replans + 1);
          if state.counters.replans > state.options.maxReplans {
            return LoopFailure(TooManyReplans);
          }
          state.results := state.results.(builder := None, verification := None);
          if result.decisionRequired {
            state.results := state.results.(decision := Some(RequestFromAuditor(result)));
            state.phase := Architecting;
          } else {
            state.phase := Planning;
          }
      }
      return NoRaise;
    }

    method DoMerging(state: RunState, i: StepInput) returns (raise: Raise)
      requires Ready(state) && state.phase.Merging?
      modifies this`activeWorktree, state, repo
      ensures Matches(state, old(state.ToDict()), repo.git, raise,
                      Transitions.DoMerging(old(state.BodyFields()), old(repo.git), i))
      ensures Ready(state)
    {
      var worktree := RequireWorktree(state);
      if worktree.None? {
        return LoopFailure(NoWorktree);
      }
      if state.intents.mergePre.None? || state.intents.mergeTask.None? {
        return LoopFailure(NoMergeIntent);
      }
      if i.gitBefore.Some? {
        return GitRaise(Reported(i.gitBefore.value));
      }
      if HeadAt(repo.git, worktree.value.path) != state.intents.mergeTask {
        return GitRaise(Own(TaskHeadMoved));
      }
      var merged := repo.ReconcileOrMergeTask(state.intents.mergePre.value, state.intents.mergeTask.value, i.merge);
      match merged {
        case GitFails(reason) => return GitRaise(Own(reason));
        case Conflicts(reason) => return Operational(Fault(MergeConflictKind, Own(reason)));
        case Ok(commit) =>
          if i.gitAfter.Some? {
            return GitRaise(Reported(i.gitAfter.value));
          }
          state.intents := state.intents.(mergeCommit := Some(commit));
          state.phase := CleanupWorktree;
          return NoRaise;
      }
    }

    method DoCleanupWorktree(state: RunState, i: StepInput) returns (raise: Raise)
      requires Ready(state) && state.phase.CleanupWorktree?
      modifies this`activeWorktree, state, repo
      ensures Matches(state, old(state.ToDict()), repo.git, raise,
                      Transitions.DoCleanupWorktree(old(state.BodyFields()), old(repo.git), i))
      ensures Ready(state)
    {
      var worktree := RequireWorktree(state);
      if worktree.None? {
        return LoopFailure(NoWorktree);
      }
      var safety := CleanupSafety(state.BodyFields(), repo.git);
      if safety != NoRaise {
        return safety;
      }
      if i.gitBefore.Some? {
        return GitRaise(Reported(i.gitBefore.value));
      }
      var failure := repo.RemoveTaskWorktreeOnly(worktree.value.path, worktree.value.branch);
      if failure.Some? {
        return GitRaise(Own(failure.value));
      }
      state.phase := CleanupBranch;
      return NoRaise;
    }

    method DoCleanupBranch(state: RunState, i: StepInput) returns (raise: Raise)
      requires Ready(state) && state.phase.CleanupBranch?
      modifies this`activeWorktree, state, repo
      ensures Matches(state, old(state.ToDict()), repo.git, raise,
                      Transitions.DoCleanupBranch(old(state.BodyFields()), old(repo.git), i))
      ensures raise.NoRaise? || raise.Operational? ==> Ready(state)
    {
      var worktree := RequireWorktree(state);
      if worktree.None? {
        return LoopFailure(NoWorktree);
      }
      var safety := CleanupSafety(state.BodyFields(), repo.git);
      if safety != NoRaise {
        return safety;
      }
      if i.gitBefore.Some? {
        return GitRaise(Reported(i.gitBefore.value));
      }
      var failure := repo.DeleteTaskBranchOnly(worktree.value.branch);
      if failure.Some? {
        return GitRaise(Own(failure.value));
      }
      raise := FinishTaskCleanup(state);
    }

    /** `_finish_task_cleanup`. */
    method FinishTaskCleanup(state: RunState) returns (raise: Raise)
      requires state.phase.CleanupBranch?
      modifies this`activeWorktree, state
      ensures Matches(state, old(state.ToDict()), repo.git, raise, FinishTask(old(state.BodyFields()), repo.git))
      ensures raise.NoRaise? ==> CacheAgrees(state)
      ensures !raise.Operational?
    {
      state.counters := Counters(state.counters.accepted + 1, 0, 0, 0, 0);
      state.task := Task(None, None, None, None);
      state.lastTaskHead := None;
      if state.results.planner.None? {
        return Escapes;
      }
      var planner := state.results.planner.value;
      if planner.taskId.None? || planner.objective.None? || planner.rationale.None? {
        return LoopFailure(IncompletePlan);
      }
      var completed := CompletedTask(planner.taskId.value, planner.objective.value, planner.rationale.value);
      state.results := Results(None, None, None, None, None, None, Some(completed));
      state.intents := state.intents.(mergePre := None, mergeTask := None, mergeCommit := None);
      activeWorktree := None;
      state.phase := Planning;
      return NoRaise;
    }

    /** `_do_retry_operational_failure`. */
    method DoRetryOperationalFailure(state: RunState) returns (raise: Raise)
      requires state.phase.OperationalFailure?
      modifies state
      ensures var d := old(state.ToDict());
        state.ToDict() == InMemory(d, DoRetry(d, repo.git)) && raise == DoRetry(d, repo.git).raise
      ensures state.task == old(state.task)
    {
      if state.lastError.None? {
        return LoopFailure(NoErrorRecord);
      }
      if !state.lastError.value.retryable {
        return LoopFailure(NotRetryable);
      }
      if state.lastError.value.retryPhase.None? {
        return LoopFailure(NoRetryPhase);
      }
      state.phase := state.lastError.value.retryPhase.value;
      state.lastError := None;
      return NoRaise;
    }

    // ------------------------------------------------------- pending input

    /** `_replan_from_awaiting_input`. */
    method ReplanFromAwaitingInput(state: RunState) returns (raise: Raise)
      requires state.phase.AwaitingInput?
      modifies state
      ensures Matches(state, old(state.ToDict()), repo.git, raise, OperatorReplan(old(state.BodyFields()), repo.git))
      ensures state.task == old(state.task)
    {
      state.counters := state.counters.(replans := state.counters.replans + 1);
      state.question := None;
      if state.counters.replans > state.options.maxReplans {
        return LoopFailure(TooManyReplans);
      }
      state.results := state.results.(builder := None, verification := None);
      state.phase := Planning;
      return NoRaise;
    }

    /** `_try_resolve_pending_input`, the answer at hand. */
    method ResolvePendingInput(state: RunState, answer: string, i: StepInput) returns (raise: Raise)
      requires state.phase.AwaitingInput?
      modifies state
      ensures Matches(state, old(state.ToDict()), repo.git, raise,
                      ResolveInput(old(state.BodyFields()), repo.git, answer, i))
      ensures state.task.path == old(state.task.path) && state.task.branch == old(state.task.branch)
    {
      if state.question.None? {
        return Escapes;
      }
      var pending := state.question.value;
      var word := Lower(Strip(answer));
      match pending.kind {
        case BuilderGuidance =>
          if word == "replan" {
            raise := ReplanFromAwaitingInput(state);
            return;
          }
          state.question := Some(pending.(answer := Some(answer)));
          state.phase := Building;
        case BuilderEscalation =>
          if word == "replan" {
            raise := ReplanFromAwaitingInput(state);
            return;
          }
          if word == "abandon" {
            state.question := None;
            return LoopFailure(Abandoned);
          }
          state.question := Some(PendingQuestion(BuilderEscalation, Own(UnknownAnswer), pending.context, None));
        case ArchitectInput =>
          state.question := Some(pending.(answer := Some(answer)));
          state.phase := Architecting;
        case DecisionApproval =>
          if IsApproval(answer) {
            state.question := Some(pending.(answer := Some(answer)));
            raise := PrepareRecordDecision(state, i);
            return;
          }
          var question := if state.results.decision.Some? then state.results.decision.value.question else "";
          state.question := Some(PendingQuestion(ArchitectInput, Own(RejectedProposal), AboutQuestion(question), None));
      }
      return NoRaise;
    }

    // --------------------------------------------------------- advance()

    method DispatchPhase(state: RunState, i: StepInput) returns (raise: Raise)
      requires Ready(state) && !IsTerminal(state.phase) && |i.runs| == |state.options.verifyCommands|
      modifies this`activeWorktree, state, repo
      ensures var d := old(state.ToDict());
        var x := Dispatch(d, old(repo.git), i);
        state.ToDict() == InMemory(d, x) && repo.git == x.git && raise == x.raise
      ensures HasMain(repo.git)
      ensures !raise.LoopFailure? && !raise.Escapes? ==> CacheAgrees(state)
    {
      match state.phase {
        case Planning => raise := DoPlanning(state, i);
        case Architecting => raise := DoArchitecting(state, i);
        case Building => raise := DoBuilding(state, i);
        case Verifying => raise := DoVerifying(state, i);
        case Auditing => raise := DoAuditing(state, i);
        case AwaitingInput =>
          if i.answer.Some? {
            raise := ResolvePendingInput(state, i.answer.value, i);
          } else {
            raise := NoRaise;
          }
        case CreatingWorktree => raise := DoCreatingWorktree(state, i);
        case RecordingDecision => raise := DoRecordingDecision(state, i);
        case Merging => raise := DoMerging(state, i);
        case CleanupWorktree => raise := DoCleanupWorktree(state, i);
        case CleanupBranch => raise := DoCleanupBranch(state, i);
        case OperationalFailure => raise := DoRetryOperationalFailure(state);
      }
    }

    /** `_save`: refresh the checkpoints and write the state file. */
    method Save(state: RunState, choice: SaveChoice) returns (result: SaveResult)
      requires HasMain(repo.git)
      modifies state, this`disk
      ensures result == Transitions.Save(old(state.ToDict()), repo.git, choice)
      ensures state.ToDict() == if result.SavedAs? then result.doc else old(state.ToDict())
      ensures disk == if result.SavedAs? then Some(result.doc) else old(disk)
      ensures state.task == old(state.task)
    {
      result := Transitions.Save(state.ToDict(), repo.git, choice);
      if result.SavedAs? {
        state.checkpoints := result.doc.checkpoints;
        disk := Some(state.ToDict());
      }
    }

    /** `_handle_operational_failure`. */
    method HandleOperationalFailure(state: RunState, f: Fault, failedPhase: Phase, before: Phase, choice: SaveChoice)
      returns (result: Result)
      requires HasMain(repo.git)
      modifies state, this`disk
      ensures var s := FailOperationally(old(state.ToDict()), repo.git, f, failedPhase, before, choice);
        state.ToDict() == s.mem && result == s.result && disk == if s.disk.Some? then s.disk else old(disk)
      ensures state.phase.OperationalFailure? && (result.Returned? ==> result.status.OperationalFailureStatus?)
      ensures state.task == old(state.task)
    {
      state.lastError := Some(FailureRecord(f, failedPhase));
      if failedPhase.Building? && state.task.path.Some? {
        var head := HeadAt(repo.git, state.task.path.value);
        if head.Some? {
          state.checkpoints := state.checkpoints.(taskHead := head, taskStatus := Some(repo.git.trees[state.task.path.value].status));
        }
      }
      state.phase := OperationalFailure;
      var saved := Save(state, choice);
      if saved.SaveFails? {
        return Escaped;
      }
      return Returned(OperationalFailureStatus, before, OperationalFailure, Some(f.message));
    }

    /** `_handle_terminal_failure`. */
    method HandleTerminalFailure(state: RunState, reason: Reason, before: Phase, i: StepInput) returns (result: Result)
      requires HasMain(repo.git)
      modifies state, this`disk
      ensures var s := FailTerminally(old(state.ToDict()), repo.git, reason, before, i);
        state.ToDict() == s.mem && result == s.result && disk == if s.disk.Some? then s.disk else old(disk)
      ensures state.phase.Failed? && (result.Returned? ==> result.status.TerminalStatus?)
    {
      state.lastError := Some(TerminalRecord(reason, before));
      state.phase := Failed;
      var saved := Save(state, i.failureSave);
      if saved.SaveFails? {
        return Escaped;
      }
      return Returned(TerminalStatus, before, Failed, Some(Own(reason)));
    }

    /** `_save_after_transition`. */
    method SaveAfter(state: RunState, before: Phase, status: Status, i: StepInput) returns (result: Result)
      requires HasMain(repo.git)
      modifies state, this`disk
      requires status.Advanced? || status.InputRequiredStatus? || status.InputUnavailable?
      ensures var s := SaveAfterTransition(old(state.ToDict()), repo.git, before, status, i);
        state.ToDict() == s.mem && result == s.result && disk == if s.disk.Some? then s.disk else old(disk)
      ensures result.Returned? ==> !result.status.TerminalStatus?
      ensures result.Returned? && result.status.OperationalFailureStatus? ==> state.phase.OperationalFailure?
      ensures state.task == old(state.task)
    {
      var target := if IsTerminal(state.phase) then before else state.phase;
      if !status.InputUnavailable? && !before.OperationalFailure? {
        state.operationalRetries := 0;
      }
      result := SaveOrFail(state, target, before, status, i);
    }

    /** The save of a finished transition, classified like a failure of the transition itself. */
    method SaveOrFail(state: RunState, target: Phase, before: Phase, status: Status, i: StepInput) returns (result: Result)
      requires HasMain(repo.git)
      modifies state, this`disk
      requires status.Advanced? || status.InputRequiredStatus? || status.InputUnavailable?
      ensures var s := SavedOrFailed(old(state.ToDict()), repo.git, target, before, status, i);
        state.ToDict() == s.mem && result == s.result && disk == if s.disk.Some? then s.disk else old(disk)
      ensures result.Returned? ==> !result.status.TerminalStatus?
      ensures result.Returned? && result.status.OperationalFailureStatus? ==> state.phase.OperationalFailure?
      ensures state.task == old(state.task)
    {
      var saved := Save(state, i.save);
      match saved {
        case SavedAs(d) => return Returned(status, before, d.phase, None);
        case SaveFails(None) => return Escaped;
        case SaveFails(Some(f)) => result := HandleOperationalFailure(state, f, target, before, i.failureSave);
      }
    }

    /** The body of `advance`. */
    method AdvanceOnce(state: RunState, i: StepInput) returns (result: Result)
      requires Ready(state) && |i.runs| == |state.options.verifyCommands|
      modifies this`activeWorktree, this`disk, state, repo
      ensures var s := Transitions.Advance(old(state.ToDict()), old(repo.git), i);
        && state.ToDict() == s.mem && repo.git == s.git && result == s.result
        && disk == if s.disk.Some? then s.disk else old(disk)
      ensures result.Returned? && !IsTerminal(old(state.phase)) ==> disk == Some(state.ToDict())
      ensures HasMain(repo.git)
      ensures result.Returned? && !result.status.TerminalStatus? ==> CacheAgrees(state)
      ensures result.Returned? && result.status.TerminalStatus? ==> IsTerminal(state.phase)
      ensures result.Returned? && result.status.OperationalFailureStatus? ==> state.phase.OperationalFailure?
    {
      var before := state.phase;
      if IsTerminal(before) {
        return Returned(TerminalStatus, before, before, None);
      }
      ghost var d, g := state.ToDict(), repo.git;
      var raise := DispatchPhase(state, i);
      if Concluded(d, Dispatch(d, g, i), i).result.Returned? {
        ReturnedIsWritten(d, Dispatch(d, g, i), i);
      }
      match raise {
        case NoRaise => result := SaveAfter(state, before, SuccessStatus(before, state.phase, i), i);
        case Operational(f) => result := HandleOperationalFailure(state, f, before, before, i.failureSave);
        case LoopFailure(reason) => result := HandleTerminalFailure(state, reason, before, i);
        case Escapes => return Escaped;
        case InputRequired =>
          if !before.OperationalFailure? {
            state.operationalRetries := 0;
          }
          var saved := Save(state, i.save);
          match saved {
            case SavedAs(d) => return Returned(InputRequiredStatus, before, d.phase, None);
            case SaveFails(_) => return Escaped;
          }
      }
    }

    /** `advance`: one phase is dispatched, and whatever became of it is persisted. */
    method Advance(state: RunState, i: StepInput) returns (result: Result)
      requires Ready(state) && |i.runs| == |state.options.verifyCommands|
      modifies this`activeWorktree, this`disk, state, repo
      ensures var s := Transitions.Advance(old(state.ToDict()), old(repo.git), i);
        && state.ToDict() == s.mem && repo.git == s.git && result == s.result
        && disk == if s.disk.Some? then s.disk else old(disk)
      ensures result.Returned? && !IsTerminal(old(state.phase)) ==> disk == Some(state.ToDict())
      ensures StepKeeps(old(state.ToDict()), old(repo.git), i, state.ToDict(), repo.git, result.Returned?)
      ensures HasMain(repo.git)
      ensures result.Returned? && !result.status.TerminalStatus? ==> CacheAgrees(state)
      ensures result.Returned? && result.status.TerminalStatus? ==> IsTerminal(state.phase)
      ensures result.Returned? && result.status.OperationalFailureStatus? ==> state.phase.OperationalFailure?
    {
      AdvanceKeeps(state.ToDict(), repo.git, i);
      result := AdvanceOnce(state, i);
    }

    /** Where an iteration has led: on, if `ended` is None. */
    function Outcome(state: RunState, ended: Option<Ended>): Iteration
      reads state, repo
    {
      if ended.None? then GoesOn(state.ToDict(), repo.git) else Stops(state.ToDict(), repo.git, ended.value)
    }

    /** One iteration of `run()`; None if the loop goes on. */
    method TakeStep(state: RunState, i: StepInput) returns (ended: Option<Ended>)
      requires Ready(state) && |i.runs| == |state.options.verifyCommands| && !IsTerminal(state.phase)
      modifies this`activeWorktree, this`disk, state, repo
      ensures Iterate(old(state.ToDict()), old(repo.git), i) == Outcome(state, ended)
      ensures ended != Some(Crashed) ==> disk == Some(state.ToDict())
      ensures ended.None? ==> Ready(state)
      ensures ended == Some(Finished) ==> IsTerminal(state.phase)
      ensures ended == Some(Failing) ==> state.phase.OperationalFailure? && !MayRetry(state.ToDict())
    {
      var result := Advance(state, i);
      ended := Account(state, result, i.retrySave);
    }

    /** What the loop makes of an outcome: it ends, or goes on, perhaps counting a retry. */
    method Account(state: RunState, result: Result, retrySave: SaveChoice) returns (ended: Option<Ended>)
      requires HasMain(repo.git)
      requires result.Returned? && result.status.TerminalStatus? ==> IsTerminal(state.phase)
      modifies this`disk, state
      ensures AfterStep(old(state.ToDict()), repo.git, result, retrySave) == Outcome(state, ended)
      ensures ended != Some(Crashed) && old(disk) == Some(old(state.ToDict())) ==> disk == Some(state.ToDict())
      ensures ended.None? ==> result.Returned? && !result.status.TerminalStatus?
      ensures ended == Some(Finished) ==> IsTerminal(state.phase)
      ensures ended == Some(Failing) ==> !MayRetry(state.ToDict()) && result.Returned? && result.status.OperationalFailureStatus?
      ensures state.task == old(state.task) && state.phase == old(state.phase)
    {
      if result.Escaped? {
        return Some(Crashed);
      }
      match result.status {
        case InputUnavailable => return Some(Paused);
        case TerminalStatus => return Some(Finished);
        case OperationalFailureStatus =>
          if !MayRetry(state.ToDict()) {
            return Some(Failing);
          }
          state.operationalRetries := state.operationalRetries + 1;
          var saved := Save(state, retrySave);
          if saved.SaveFails? {
            return Some(Crashed);
          }
        case _ =>
      }
      return None;
    }

    /** The same iteration, as far as it brings the run closer to its end. */
    method TakeStepDown(state: RunState, env: Environment, ghost now: Moment, n: nat, answer: Option<string>,
                        ghost turn: Moment -> Iteration, ghost bound: nat)
      returns (ended: Option<Ended>)
      requires Answers(env) && FinishesBy(env, bound) && IteratesAs(env, turn)
      requires Ready(state) && Running(state.ToDict()) && !IsTerminal(state.phase)
      requires now.doc == state.ToDict() && now.git == repo.git && now.steps == n && AnswerAt(now) == answer
      modifies this`activeWorktree, this`disk, state, repo
      ensures turn(now) == Outcome(state, ended)
      ensures ended != Some(Crashed) ==> disk == Some(state.ToDict())
      ensures ended.None? ==> Ready(state)
      ensures ended.None? ==>
                IsTerminal(state.phase)
                || (Running(state.ToDict())
                    && (answer.Some? || Falls(MeasureOf(state.ToDict(), n + 1, bound), MeasureOf(now.doc, n, bound))))
      ensures ended == Some(Finished) ==> IsTerminal(state.phase)
      ensures ended == Some(Failing) ==> state.phase.OperationalFailure? && !MayRetry(state.ToDict())
    {
      assert turn(now) == IterationAt(env, now);
      ended := TakeStep(state, env(n, state.ToDict(), repo.git, answer));
      if ended.None? {
        StepFalls(env, n, now.doc, now.git, answer, bound);
      }
    }

    /** The loop of `run`. */
    method Loop(state: RunState, env: Environment, answers: seq<string>, maxSteps: Option<nat>,
               ghost turn: Moment -> Iteration, ghost bound: nat)
      returns (ended: Ended)
      requires Answers(env) && FinishesBy(env, bound) && IteratesAs(env, turn)
      requires Ready(state) && (IsTerminal(state.phase) || Running(state.ToDict()))
      modifies this`activeWorktree, this`disk, state, repo
      ensures exists turns: nat ::
                Leads(turn, Moment(old(state.ToDict()), old(repo.git), answers, 0), maxSteps,
                      Stops(state.ToDict(), repo.git, ended), turns)
      ensures !ended.Crashed? && old(disk) == Some(old(state.ToDict())) ==> disk == Some(state.ToDict())
      ensures ended.Finished? ==> IsTerminal(state.phase)
      ensures ended.Failing? ==> state.phase.OperationalFailure? && !MayRetry(state.ToDict())
    {
      var steps, left := 0, answers;
      ghost var first := Moment(state.ToDict(), repo.git, answers, 0);
      ghost var now, m := first, MeasureOf(first.doc, 0, bound);
      while !IsTerminal(state.phase)
        invariant Ready(state) && now == Moment(state.ToDict(), repo.git, left, steps)
        invariant IsTerminal(state.phase) || Running(now.doc)
        invariant m == MeasureOf(now.doc, steps, bound)
        invariant old(disk) == Some(old(state.ToDict())) ==> disk == Some(now.doc)
        invariant Passes(turn, first, now, maxSteps)
        decreases |left|, !IsTerminal(state.phase), m.tasks, m.plan, m.work, m.wait, m.tries
      {
        if maxSteps.Some? && steps >= maxSteps.value {
          assert Leads(turn, now, maxSteps, Stops(now.doc, now.git, Paused), 0);
          return Paused;
        }
        var answer := if state.phase.AwaitingInput? && left != [] then Some(left[0]) else None;
        RunningMeasures(now.doc, steps, bound);
        var stopped := TakeStepDown(state, env, now, steps, answer, turn, bound);
        if stopped.Some? {
          assert Leads(turn, now, maxSteps, turn(now), 0);
          return stopped.value;
        }
        PassesOn(turn, first, now, Onward(now, state.ToDict(), repo.git), maxSteps);
        steps := steps + 1;
        if answer.Some? {
          left := left[1..];
        }
        now := Onward(now, state.ToDict(), repo.git);
        m := MeasureOf(now.doc, steps, bound);
      }
      assert Leads(turn, now, maxSteps, Stops(now.doc, now.git, Finished), 0);
      return Finished;
    }

    /** `run`: it comes to an end however the agents answer and whatever fails, as long as the
        operator's answers run out and the end of the run is at last saved. It is the end its
        iterations lead to, and unless an exception got out, what is in memory is on disk. If the environment
        behaves, the limits are kept and no commit is lost, nor put out of reach if agents keep tips;
        and a run that is done has no task left and its limit reached, or the planner's word that
        there is no more work. */
    method Run(state: RunState, env: Environment, answers: seq<string>, maxSteps: Option<nat>,
               ghost turn: Moment -> Iteration, ghost bound: nat)
      returns (ended: Ended)
      requires Answers(env) && FinishesBy(env, bound) && IteratesAs(env, turn)
      requires Ready(state) && (IsTerminal(state.phase) || Running(state.ToDict()))
      modifies this`activeWorktree, this`disk, state, repo
      ensures exists turns: nat ::
                Leads(turn, Moment(old(state.ToDict()), old(repo.git), answers, 0), maxSteps,
                      Stops(state.ToDict(), repo.git, ended), turns)
      ensures !ended.Crashed? && old(disk) == Some(old(state.ToDict())) ==> disk == Some(state.ToDict())
      ensures ended.Finished? ==> IsTerminal(state.phase)
      ensures ended.Failing? ==> state.phase.OperationalFailure? && !MayRetry(state.ToDict())
      ensures Behaves(env) && CarriedDoc(old(state.ToDict()), old(repo.git)) ==>
                && (!ended.Crashed? ==> CarriedDoc(state.ToDict(), repo.git))
                && (ended.Finished? && state.phase.Done? ==> NoTask(state.task) && WorkIsOver(state.BodyFields()))
                && Extends(old(repo.git.commits), repo.git.commits)
                && (KeepsTips(env) ==> RefsKept(old(repo.git), repo.git))
    {
      ghost var first := Moment(state.ToDict(), repo.git, answers, 0);
      ended := Loop(state, env, answers, maxSteps, turn, bound);
      ghost var turns: nat :| Leads(turn, first, maxSteps, Stops(state.ToDict(), repo.git, ended), turns);
      if Behaves(env) && CarriedDoc(first.doc, first.git) {
        LoopSustains(env, turn, first, maxSteps, Stops(state.ToDict(), repo.git, ended), turns);
      }
    }
  }
}
