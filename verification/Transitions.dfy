/** The supervisor's state machine as functions on the run document and the repository:
    one `advance()` call, with everything the environment decides passed in as a `StepInput`. */
module Transitions {
  import opened Text
  import opened Contracts
  import opened Document
  import opened Repository
  import opened Decisions

  // ------------------------------------------------------------ environment

  datatype AgentError = TimedOut | InvocationFailed | BadContract | OtherAgentError

  /** The outcome of running an agent, including the retries of malformed output. */
  datatype Reply<+T> = Replied(value: T) | AgentFailed(kind: AgentError, message: string)

  datatype CommandRun = CommandRun(returncode: Option<int>, timedOut: bool)

  /** The outcome of a save: the checkpoint's Git queries or the state file write may fail. */
  datatype SaveChoice = SaveWorks | CheckpointFails(message: string) | StorageFails

  /** Everything one `advance()` call may learn from outside. */
  datatype StepInput = StepInput(
    planner: Reply<PlannerResult>,
    architect: Reply<ArchitectResult>,
    builder: Reply<BuilderResult>,
    auditor: Reply<AuditorResult>,
    edit: Edit,
    runs: seq<CommandRun>,
    answer: Option<string>,
    gitBefore: Option<string>,
    gitAfter: Option<string>,
    provisionFault: Option<string>,
    adrFault: Option<string>,
    adrLine: nat,
    merge: MergeChoice,
    save: SaveChoice,
    failureSave: SaveChoice,
    retrySave: SaveChoice)

  /** Replies have passed their contract; new commits have new names; every command ran. */
  predicate InputFits(b: Body, g: Git, i: StepInput) {
    && (i.planner.Replied? ==> ValidPlanner(i.planner.value))
    && (i.architect.Replied? ==> ValidArchitect(i.architect.value))
    && (i.builder.Replied? ==> ValidBuilder(i.builder.value))
    && (i.auditor.Replied? ==> ValidAuditor(i.auditor.value))
    && EditFits(g, i.edit)
    && (i.merge.Merged? ==> FreshCommit(g, i.merge.commit))
    && |i.runs| == |b.options.verifyCommands|
    && (forall k :: 0 <= k < |i.runs| ==> i.runs[k].timedOut ==> i.runs[k].returncode.None?)
  }

  // --------------------------------------------------------------- raising

  datatype Fault = Fault(kind: ErrorKind, message: Message)

  /** How a dispatch ended. `Escapes` is an exception `advance()` does not catch. */
  datatype Raise =
    | NoRaise
    | InputRequired
    | Operational(fault: Fault)
    | LoopFailure(reason: Reason)
    | Escapes

  /** Where a dispatch leaves the run: the body and phase in memory, the repository, and how it ended. */
  datatype Dispatched = Dispatched(body: Body, phase: Phase, git: Git, raise: Raise)

  function AgentRaise(kind: AgentError, message: string): Raise {
    match kind
    case TimedOut => Operational(Fault(TimeoutKind, Reported(message)))
    case InvocationFailed => Operational(Fault(AgentInvocationKind, Reported(message)))
    case BadContract => Operational(Fault(ContractKind, Reported(message)))
    case OtherAgentError => Escapes
  }

  function GitRaise(m: Message): Raise {
    Operational(Fault(GitKind, m))
  }

  function ContractRaise(reason: Reason): Raise {
    Operational(Fault(ContractKind, Own(reason)))
  }

  function DecisionRaise(m: Message): Raise {
    Operational(Fault(DecisionKind, m))
  }

  /** `_classify_operational_failure`: the retry phase and whether a repair is needed first. */
  function RetryPhaseFor(kind: ErrorKind, failedPhase: Phase): Phase {
    if kind.MergeConflictKind? then Merging else failedPhase
  }

  predicate RequiresRepair(kind: ErrorKind, failedPhase: Phase) {
    || kind.MergeConflictKind? || kind.DecisionKind?
    || (kind.GitKind? && (failedPhase.CleanupWorktree? || failedPhase.CreatingWorktree?))
  }

  function FailureRecord(f: Fault, failedPhase: Phase): ErrorRecord {
    ErrorRecord(f.kind, failedPhase, failedPhase, Some(RetryPhaseFor(f.kind, failedPhase)), f.message,
                true, RequiresRepair(f.kind, failedPhase))
  }

  function TerminalRecord(reason: Reason, failedPhase: Phase): ErrorRecord {
    ErrorRecord(TerminalKind, failedPhase, failedPhase, None, Own(reason), false, false)
  }

  predicate HasMain(g: Git) {
    g.mainBranch in g.branches
  }

  function WorktreeEdit(t: Task, g: Git, e: Edit): (r: Git)
    ensures HasMain(g) ==> HasMain(r)
  {
    if t.path.Some? then ApplyEdit(g, t.path.value, e) else g
  }

  function RequestFromPlanner(r: PlannerResult): DecisionRequest {
    DecisionRequest(FromPlanner, OrEmpty(r.decisionQuestion), OrEmpty(r.decisionRationale))
  }

  function RequestFromAuditor(r: AuditorResult): DecisionRequest {
    DecisionRequest(FromAuditor, OrEmpty(r.decisionQuestion), OrEmpty(r.decisionRationale))
  }

  // ---------------------------------------------------------------- phases

  function DoPlanning(b: Body, g: Git, i: StepInput): (x: Dispatched)
    requires HasMain(g)
    ensures HasMain(x.git)
  {
    if b.counters.accepted >= b.options.maxAcceptedTasks then Dispatched(b, Done, g, NoRaise)
    else
      var g1 := WorktreeEdit(b.task, g, i.edit);
      match i.planner
      case AgentFailed(kind, message) => Dispatched(b, Planning, g1, AgentRaise(kind, message))
      case Replied(r) => FollowPlan(b.(results := b.results.(planner := Some(r))), g1, r, i)
  }

  /** The rest of planning once the planner has answered. */
  function FollowPlan(b: Body, g: Git, r: PlannerResult, i: StepInput): (x: Dispatched)
    requires HasMain(g)
    ensures HasMain(x.git)
  {
    if r.status.NoMoreWork? then
      if b.task.path.Some? then
        Dispatched(b, Planning, g, LoopFailure(TaskStillActive))
      else Dispatched(b, Done, g, NoRaise)
    else if b.task.path.None? then IntendWorktree(b, g, r, i)
    else StartTask(b, g, r)
  }

  function IntendWorktree(b: Body, g: Git, r: PlannerResult, i: StepInput): (x: Dispatched)
    requires HasMain(g)
    ensures HasMain(x.git)
  {
    var taskId := OrEmpty(r.taskId);
    if Sanitize(taskId) == "" then Dispatched(b, Planning, g, GitRaise(Own(EmptyTaskId)))
    else
      var intents := b.intents.(treePath := Some(WorktreePathFor(g, taskId)), treeBranch := Some(BranchFor(taskId)));
      if i.gitBefore.Some? then Dispatched(b.(intents := intents), Planning, g, GitRaise(Reported(i.gitBefore.value)))
      else Dispatched(b.(intents := intents.(treeBase := Some(MainHead(g)))), CreatingWorktree, g, NoRaise)
  }

  /** The continuation once a READY task has its worktree. */
  function StartTask(b: Body, g: Git, r: PlannerResult): (x: Dispatched)
    ensures x.git == g
  {
    var b1 := b.(counters := b.counters.(revisions := 0, guidance := 0));
    if r.decisionRequired
    then Dispatched(b1.(results := b1.results.(decision := Some(RequestFromPlanner(r)))), Architecting, g, NoRaise)
    else Dispatched(b1, Building, g, NoRaise)
  }

  function DoCreatingWorktree(b: Body, g: Git, i: StepInput): (x: Dispatched)
    requires HasMain(g)
    ensures HasMain(x.git)
  {
    if b.intents.treePath.None? || b.intents.treeBranch.None? || b.intents.treeBase.None? then
      Dispatched(b, CreatingWorktree, g, LoopFailure(NoWorktreeIntent))
    else if b.results.planner.None? then
      Dispatched(b, CreatingWorktree, g, LoopFailure(NoPlannerResult))
    else if OrEmpty(b.results.planner.value.taskId) == "" then
      Dispatched(b, CreatingWorktree, g, LoopFailure(NoTaskId))
    else if i.gitBefore.Some? then Dispatched(b, CreatingWorktree, g, GitRaise(Reported(i.gitBefore.value)))
    else
      var r := b.results.planner.value;
      var made := CreateOrReconcile(g, OrEmpty(r.taskId), b.intents.treePath.value, b.intents.treeBranch.value, b.intents.treeBase.value);
      if !made.Ok? then Dispatched(b, CreatingWorktree, g, GitRaise(Own(made.reason)))
      else if b.options.provisionCommands != [] && i.provisionFault.Some? then
        Dispatched(b, CreatingWorktree, made.value, Operational(Fault(ProvisioningKind, Reported(i.provisionFault.value))))
      else StartTask(AdoptWorktree(b, r), made.value, r)
  }

  /** The pending intent becomes the task identity. */
  function AdoptWorktree(b: Body, r: PlannerResult): Body {
    b.(task := Task(r.taskId, b.intents.treePath, b.intents.treeBranch, b.intents.treeBase),
       intents := b.intents.(treePath := None, treeBranch := None, treeBase := None))
  }

  function DoArchitecting(b: Body, g: Git, i: StepInput): (x: Dispatched)
    requires HasMain(g)
    ensures HasMain(x.git)
  {
    if b.results.decision.None? then Dispatched(b, Architecting, g, LoopFailure(NoDecision))
    else
      var g1 := WorktreeEdit(b.task, g, i.edit);
      match i.architect
      case AgentFailed(kind, message) => Dispatched(b, Architecting, g1, AgentRaise(kind, message))
      case Replied(r) =>
        if r.question != b.results.decision.value.question then
          Dispatched(b, Architecting, g1, ContractRaise(OtherQuestion))
        else
          FollowArchitect(b.(results := b.results.(architect := Some(r))), g1, r, i)
  }

  /** The rest of architecting once the question at hand has been answered. */
  function FollowArchitect(b: Body, g: Git, r: ArchitectResult, i: StepInput): (x: Dispatched)
    requires b.results.decision.Some?
    ensures x.git == g
  {
    if r.status.NeedsInput? then AskArchitectInput(b, g, r)
    else if r.adr.None? then Dispatched(b, Architecting, g, Escapes)
    else if b.options.requireApproval then AskApproval(b, g, r.adr.value)
    else PrepareRecordDecision(b, Architecting, g, i)
  }

  function AskArchitectInput(b: Body, g: Git, r: ArchitectResult): (x: Dispatched)
    requires b.results.decision.Some?
    ensures x.git == g
  {
    var b1 := b.(counters := b.counters.(architectRetries := b.counters.architectRetries + 1));
    if b1.counters.architectRetries > b.options.maxArchitectRetries then
      Dispatched(b1, Architecting, g, LoopFailure(TooManyRetries))
    else
      var message := if OrEmpty(r.inputRequest) != "" then Reported(OrEmpty(r.inputRequest)) else Own(NeedInput);
      Dispatched(b1.(question := Some(PendingQuestion(ArchitectInput, message, AboutQuestion(b.results.decision.value.question), None))),
                 AwaitingInput, g, NoRaise)
  }

  function AskApproval(b: Body, g: Git, adr: Adr): (x: Dispatched)
    ensures x.git == g
  {
    Dispatched(b.(question := Some(PendingQuestion(DecisionApproval, Own(ApproveDecision),
                                                   AboutAdr(adr.title, adr.decision), None))),
               AwaitingInput, g, InputRequired)
  }

  /** `_prepare_record_decision`, called from phase `p`, and dropping the question it answers. */
  function PrepareRecordDecision(b: Body, p: Phase, g: Git, i: StepInput): (x: Dispatched)
    ensures x.git == g && x.body == b.(intents := x.body.intents, question := x.body.question)
  {
    if b.results.architect.None? then Dispatched(b, p, g, LoopFailure(NoArchitectResult))
    else if b.results.decision.None? then Dispatched(b, p, g, LoopFailure(NoDecision))
    else if b.results.architect.value.adr.None? then Dispatched(b, p, g, LoopFailure(NoAdr))
    else if i.adrFault.Some? then Dispatched(b, p, g, DecisionRaise(Reported(i.adrFault.value)))
    else
      var adr := b.results.architect.value.adr.value;
      var target := NextTarget(g, OrEmpty(b.task.path), adr);
      if !ValidTarget(OrEmpty(b.task.path), target) then Dispatched(b, p, g, DecisionRaise(Own(TargetNotAllowed)))
      else Dispatched(b.(intents := b.intents.(adrPath := Some(target), adrHash := Some(Rendered(adr))), question := None),
                      RecordingDecision, g, NoRaise)
  }

  function NextTarget(g: Git, path: string, adr: Adr): AdrPath {
    var names := if path in g.trees then g.trees[path].adrs.Keys else {};
    AdrPath(path, AdrName(NextAdrNumber(names), adr.title))
  }

  function DoRecordingDecision(b: Body, g: Git, i: StepInput): (x: Dispatched)
    requires HasMain(g)
    ensures HasMain(x.git)
  {
    if b.results.architect.None? then
      Dispatched(b, RecordingDecision, g, LoopFailure(NoArchitectResult))
    else if b.results.decision.None? then
      Dispatched(b, RecordingDecision, g, LoopFailure(NoDecision))
    else if b.intents.adrPath.None? || b.intents.adrHash.None? then
      Dispatched(b, RecordingDecision, g, LoopFailure(NoAdrIntent))
    else if b.results.architect.value.adr.None? then
      Dispatched(b, RecordingDecision, g, LoopFailure(NoAdr))
    else if i.adrFault.Some? then Dispatched(b, RecordingDecision, g, DecisionRaise(Reported(i.adrFault.value)))
    else
      var wrote := WriteAdr(g, OrEmpty(b.task.path), b.results.architect.value.adr.value,
                            b.intents.adrPath.value, b.intents.adrHash.value, i.adrLine);
      if !wrote.Ok? then Dispatched(b, RecordingDecision, g, DecisionRaise(Own(wrote.reason)))
      else
        Dispatched(b.(intents := b.intents.(adrPath := None, adrHash := None),
                      results := b.results.(decision := None),
                      counters := b.counters.(architectRetries := 0)),
                   if b.results.decision.value.origin.FromPlanner? then Building else Planning,
                   wrote.value, NoRaise)
  }

  predicate HasWorktree(t: Task) {
    t.path.Some? && t.branch.Some?
  }

  function DoBuilding(b: Body, g: Git, i: StepInput): (x: Dispatched)
    requires HasMain(g)
    ensures HasMain(x.git)
  {
    if b.results.planner.None? then Dispatched(b, Building, g, LoopFailure(NoPlannerResult))
    else if !HasWorktree(b.task) then Dispatched(b, Building, g, LoopFailure(NoWorktree))
    else
      var g1 := WorktreeEdit(b.task, g, i.edit);
      match i.builder
      case AgentFailed(kind, message) => Dispatched(b, Building, g1, AgentRaise(kind, message))
      case Replied(r) =>
        if !SameTask(OrEmpty(b.results.planner.value.taskId), r.taskId, r.objective) then
          Dispatched(b, Building, g1, ContractRaise(IdentityDrift))
        else
          var b1 := b.(results := b.results.(builder := Some(r)));
          if r.status.Complete? then FinishBuild(b1, g1, r, i) else AskGuidance(b1, g1, r)
  }

  /** The outcome of `verify_builder_commit` on the reported commit. */
  function Verified(b: Body, g: Git, r: BuilderResult): (v: Outcome<string>)
    requires HasWorktree(b.task)
    ensures !v.Conflicts?
  {
    VerifyBuilderCommit(g, b.task.path.value, b.task.branch.value, OrEmpty(b.task.base), OrEmpty(r.commit))
  }

  function FinishBuild(b: Body, g: Git, r: BuilderResult, i: StepInput): (x: Dispatched)
    requires HasWorktree(b.task)
    ensures x.git == g
  {
    if OrEmpty(r.commit) == "" then Dispatched(b, Building, g, LoopFailure(NoCommitHash))
    else if i.gitBefore.Some? then Dispatched(b, Building, g, GitRaise(Reported(i.gitBefore.value)))
    else
      var v := Verified(b, g, r);
      if !v.Ok? then Dispatched(b, Building, g, GitRaise(Own(v.reason)))
      else
        Dispatched(b.(lastTaskHead := Some(v.value), question := None, counters := b.counters.(guidance := 0)),
                   if b.options.verifyCommands != [] then Verifying else Auditing, g, NoRaise)
  }

  function AskGuidance(b: Body, g: Git, r: BuilderResult): (x: Dispatched)
    ensures x.git == g
  {
    var b1 := b.(counters := b.counters.(guidance := b.counters.guidance + 1));
    var kind := if b1.counters.guidance > b.options.maxGuidanceAttempts then BuilderEscalation else BuilderGuidance;
    Dispatched(b1.(question := Some(PendingQuestion(kind, Own(GiveGuidance), AboutStatus(r.status), None))),
               AwaitingInput, g, NoRaise)
  }

  /** `_summarize_verification` over the results of running every configured command. */
  function Summary(commands: seq<string>, runs: seq<CommandRun>): VerificationResult
    requires |runs| == |commands|
  {
    var records := seq(|commands|, k requires 0 <= k < |commands| =>
      CommandRecord(commands[k], !runs[k].timedOut && runs[k].returncode == Some(0), runs[k].returncode,
                    runs[k].timedOut, k + 1));
    VerificationResult(forall k :: 0 <= k < |records| ==> records[k].ok, records)
  }

  function DoVerifying(b: Body, g: Git, i: StepInput): (x: Dispatched)
    requires HasMain(g) && |i.runs| == |b.options.verifyCommands|
    ensures HasMain(x.git)
  {
    if !HasWorktree(b.task) then Dispatched(b, Verifying, g, LoopFailure(NoWorktree))
    else if i.gitBefore.Some? then Dispatched(b, Verifying, g, GitRaise(Reported(i.gitBefore.value)))
    else
      Dispatched(b.(results := b.results.(verification := Some(Summary(b.options.verifyCommands, i.runs)))), Auditing,
                 WorktreeEdit(b.task, g, i.edit), NoRaise)
  }

  function DoAuditing(b: Body, g: Git, i: StepInput): (x: Dispatched)
    requires HasMain(g)
    ensures HasMain(x.git)
  {
    if b.results.planner.None? then Dispatched(b, Auditing, g, LoopFailure(NoPlannerResult))
    else if !HasWorktree(b.task) then Dispatched(b, Auditing, g, LoopFailure(NoWorktree))
    else if i.gitBefore.Some? then Dispatched(b, Auditing, g, GitRaise(Reported(i.gitBefore.value)))
    else
      var g1 := WorktreeEdit(b.task, g, i.edit);
      match i.auditor
      case AgentFailed(kind, message) => Dispatched(b, Auditing, g1, AgentRaise(kind, message))
      case Replied(r) =>
        if !SameTask(OrEmpty(b.results.planner.value.taskId), r.taskId, r.objective) then
          Dispatched(b, Auditing, g1, ContractRaise(IdentityDrift))
        else
          var b1 := b.(results := b.results.(auditor := Some(r)));
          match r.disposition
          case Accept => AcceptTask(b1, g1, i)
          case Revise => ReviseTask(b1, g1)
          case Replan => ReplanTask(b1, g1, r)
  }

  function AcceptTask(b: Body, g: Git, i: StepInput): (x: Dispatched)
    requires HasMain(g) && HasWorktree(b.task)
    ensures x.git == g
  {
    var head := HeadAt(g, b.task.path.value);
    if i.gitAfter.Some? then Dispatched(b, Auditing, g, GitRaise(Reported(i.gitAfter.value)))
    else
      var b1 := b.(intents := b.intents.(mergePre := Some(MainHead(g))));
      if head.None? then Dispatched(b1, Auditing, g, GitRaise(Own(HeadUnreadable)))
      else Dispatched(b1.(intents := b1.intents.(mergeTask := head)), Merging, g, NoRaise)
  }

  function ReviseTask(b: Body, g: Git): (x: Dispatched)
    ensures x.git == g
  {
    var b1 := b.(counters := b.counters.(revisions := b.counters.revisions + 1));
    if b1.counters.revisions > b.options.maxRevisions then Dispatched(b1, Auditing, g, LoopFailure(TooManyRevisions))
    else Dispatched(b1.(results := b1.results.(verification := None)), Building, g, NoRaise)
  }

  function ReplanTask(b: Body, g: Git, r: AuditorResult): (x: Dispatched)
    ensures x.git == g
  {
    var b1 := b.(counters := b.counters.(replans := b.counters.replans + 1));
    if b1.counters.replans > b.options.maxReplans then Dispatched(b1, Auditing, g, LoopFailure(TooManyReplans))
    else
      var cleared := b1.results.(builder := None, verification := None);
      if r.decisionRequired
      then Dispatched(b1.(results := cleared.(decision := Some(RequestFromAuditor(r)))), Architecting, g, NoRaise)
      else Dispatched(b1.(results := cleared), Planning, g, NoRaise)
  }

  function DoMerging(b: Body, g: Git, i: StepInput): (x: Dispatched)
    requires HasMain(g)
    ensures HasMain(x.git)
  {
    if !HasWorktree(b.task) then Dispatched(b, Merging, g, LoopFailure(NoWorktree))
    else if b.intents.mergePre.None? || b.intents.mergeTask.None? then
      Dispatched(b, Merging, g, LoopFailure(NoMergeIntent))
    else if i.gitBefore.Some? then Dispatched(b, Merging, g, GitRaise(Reported(i.gitBefore.value)))
    else if HeadAt(g, b.task.path.value) != b.intents.mergeTask then
      Dispatched(b, Merging, g, GitRaise(Own(TaskHeadMoved)))
    else
      var (g1, merged) := ReconcileOrMerge(g, b.intents.mergePre.value, b.intents.mergeTask.value, i.merge);
      MergeAttempted(b, g1, merged, i)
  }

  /** The rest of merging once `git merge` has been attempted or found already done. */
  function MergeAttempted(b: Body, g: Git, merged: Outcome<string>, i: StepInput): (x: Dispatched)
    ensures x.git == g
  {
    match merged
    case GitFails(reason) => Dispatched(b, Merging, g, GitRaise(Own(reason)))
    case Conflicts(reason) => Dispatched(b, Merging, g, Operational(Fault(MergeConflictKind, Own(reason))))
    case Ok(commit) =>
      if i.gitAfter.Some? then Dispatched(b, Merging, g, GitRaise(Reported(i.gitAfter.value)))
      else Dispatched(b.(intents := b.intents.(mergeCommit := Some(commit))), CleanupWorktree, g, NoRaise)
  }

  /** `_validate_merge_cleanup_safety`. */
  function CleanupSafety(b: Body, g: Git): (r: Raise)
    requires HasMain(g) && HasWorktree(b.task)
    ensures r.NoRaise? || r.LoopFailure? || (r.Operational? && r.fault.kind.GitKind? && r.fault.message.Own?)
  {
    if b.intents.mergeCommit.None? || b.intents.mergeTask.None? then LoopFailure(NoMergeIntent)
    else
      var merge := b.intents.mergeCommit.value;
      if merge !in g.commits then GitRaise(Own(CommitGone))
      else if merge != MainHead(g) && !Reaches(g.commits, MainHead(g), merge) then
        GitRaise(Own(Document.NotReachable))
      else if |g.commits[merge].parents| != 2 || g.commits[merge].parents[1] != b.intents.mergeTask.value then
        GitRaise(Own(WrongParents))
      else if b.task.branch.value in g.branches && g.branches[b.task.branch.value] != b.intents.mergeTask.value then
        GitRaise(Own(BranchMoved))
      else NoRaise
  }

  function DoCleanupWorktree(b: Body, g: Git, i: StepInput): (x: Dispatched)
    requires HasMain(g)
    ensures HasMain(x.git)
  {
    if !HasWorktree(b.task) then Dispatched(b, CleanupWorktree, g, LoopFailure(NoWorktree))
    else if CleanupSafety(b, g) != NoRaise then Dispatched(b, CleanupWorktree, g, CleanupSafety(b, g))
    else RemoveTree(b, g, i)
  }

  function RemoveTree(b: Body, g: Git, i: StepInput): (x: Dispatched)
    requires HasMain(g) && HasWorktree(b.task)
    ensures HasMain(x.git)
  {
    if i.gitBefore.Some? then Dispatched(b, CleanupWorktree, g, GitRaise(Reported(i.gitBefore.value)))
    else
      var removed := RemoveWorktree(g, b.task.path.value, b.task.branch.value);
      if !removed.Ok? then Dispatched(b, CleanupWorktree, g, GitRaise(Own(removed.reason)))
      else Dispatched(b, CleanupBranch, removed.value, NoRaise)
  }

  function DoCleanupBranch(b: Body, g: Git, i: StepInput): (x: Dispatched)
    requires HasMain(g)
    ensures HasMain(x.git)
  {
    if !HasWorktree(b.task) then Dispatched(b, CleanupBranch, g, LoopFailure(NoWorktree))
    else if CleanupSafety(b, g) != NoRaise then Dispatched(b, CleanupBranch, g, CleanupSafety(b, g))
    else if i.gitBefore.Some? then Dispatched(b, CleanupBranch, g, GitRaise(Reported(i.gitBefore.value)))
    else
      var deleted := DeleteBranch(g, b.task.branch.value);
      if !deleted.Ok? then Dispatched(b, CleanupBranch, g, GitRaise(Own(deleted.reason)))
      else FinishTask(b, deleted.value)
  }

  /** `_finish_task_cleanup`. */
  function FinishTask(b: Body, g: Git): (x: Dispatched)
    ensures x.git == g
  {
    var b1 := b.(task := Task(None, None, None, None), lastTaskHead := None,
                 counters := Counters(b.counters.accepted + 1, 0, 0, 0, 0));
    if b.results.planner.None? then Dispatched(b1, CleanupBranch, g, Escapes)
    else
      var r := b.results.planner.value;
      if r.taskId.None? || r.objective.None? || r.rationale.None? then
        Dispatched(b1, CleanupBranch, g, LoopFailure(IncompletePlan))
      else
        Dispatched(b1.(results := Results(None, None, None, None, None, None,
                                          Some(CompletedTask(r.taskId.value, r.objective.value, r.rationale.value))),
                       intents := b1.intents.(mergePre := None, mergeTask := None, mergeCommit := None)),
                   Planning, g, NoRaise)
  }

  /** `_do_retry_operational_failure`; on success the error record is dropped. */
  function DoRetry(d: Doc, g: Git): (x: Dispatched)
    ensures x.git == g
  {
    if d.lastError.None? then
      Dispatched(d.body, OperationalFailure, g, LoopFailure(NoErrorRecord))
    else if !d.lastError.value.retryable then
      Dispatched(d.body, OperationalFailure, g, LoopFailure(NotRetryable))
    else if d.lastError.value.retryPhase.None? then
      Dispatched(d.body, OperationalFailure, g, LoopFailure(NoRetryPhase))
    else Dispatched(d.body, d.lastError.value.retryPhase.value, g, NoRaise)
  }

  // --------------------------------------------------------- pending input

  /** `_replan_from_awaiting_input`. */
  function OperatorReplan(b: Body, g: Git): (x: Dispatched)
    ensures x.git == g
  {
    var b1 := b.(counters := b.counters.(replans := b.counters.replans + 1), question := None);
    if b1.counters.replans > b.options.maxReplans then Dispatched(b1, AwaitingInput, g, LoopFailure(TooManyReplans))
    else Dispatched(b1.(results := b1.results.(builder := None, verification := None)), Planning, g, NoRaise)
  }

  predicate IsApproval(answer: string) {
    var a := Lower(Strip(answer));
    a == "y" || a == "yes" || a == "approve"
  }

  /** `_try_resolve_pending_input` with an answer at hand. */
  function ResolveInput(b: Body, g: Git, answer: string, i: StepInput): (x: Dispatched)
    ensures x.git == g
  {
    if b.question.None? then Dispatched(b, AwaitingInput, g, Escapes)
    else
      var q := b.question.value;
      var answered := b.(question := Some(q.(answer := Some(answer))));
      var word := Lower(Strip(answer));
      match q.kind
      case BuilderGuidance =>
        if word == "replan" then OperatorReplan(b, g) else Dispatched(answered, Building, g, NoRaise)
      case BuilderEscalation =>
        if word == "replan" then OperatorReplan(b, g)
        else if word == "abandon" then Dispatched(b.(question := None), AwaitingInput, g, LoopFailure(Abandoned))
        else Dispatched(b.(question := Some(PendingQuestion(BuilderEscalation, Own(UnknownAnswer), q.context, None))),
                        AwaitingInput, g, NoRaise)
      case ArchitectInput => Dispatched(answered, Architecting, g, NoRaise)
      case DecisionApproval =>
        if IsApproval(answer) then PrepareRecordDecision(answered, AwaitingInput, g, i)
        else RejectDecision(b, g)
  }

  function RejectDecision(b: Body, g: Git): (x: Dispatched)
    ensures x.git == g
  {
    var question := if b.results.decision.Some? then b.results.decision.value.question else "";
    Dispatched(b.(question := Some(PendingQuestion(ArchitectInput, Own(RejectedProposal),
                                                   AboutQuestion(question), None))),
               AwaitingInput, g, NoRaise)
  }

  function Dispatch(d: Doc, g: Git, i: StepInput): (x: Dispatched)
    requires HasMain(g) && |i.runs| == |d.body.options.verifyCommands| && !IsTerminal(d.phase)
    ensures HasMain(x.git)
  {
    match d.phase
    case Planning => DoPlanning(d.body, g, i)
    case Architecting => DoArchitecting(d.body, g, i)
    case Building => DoBuilding(d.body, g, i)
    case Verifying => DoVerifying(d.body, g, i)
    case Auditing => DoAuditing(d.body, g, i)
    case AwaitingInput =>
      if i.answer.Some? then ResolveInput(d.body, g, i.answer.value, i) else Dispatched(d.body, AwaitingInput, g, NoRaise)
    case CreatingWorktree => DoCreatingWorktree(d.body, g, i)
    case RecordingDecision => DoRecordingDecision(d.body, g, i)
    case Merging => DoMerging(d.body, g, i)
    case CleanupWorktree => DoCleanupWorktree(d.body, g, i)
    case CleanupBranch => DoCleanupBranch(d.body, g, i)
    case OperationalFailure => DoRetry(d, g)
  }

  // ----------------------------------------------------------------- saving

  /** `_checkpoint`: refresh the Git checkpoints, or None when the task worktree cannot be read. */
  function Checkpoint(d: Doc, g: Git): Option<Doc>
    requires HasMain(g)
  {
    var task := d.body.task;
    if EffectivePhase(d).CleanupBranch? then
      Some(d.(checkpoints := Checkpoints(MainHead(g), g.mainStatus, d.checkpoints.taskHead, None)))
    else if task.path.None? then Some(d.(checkpoints := Checkpoints(MainHead(g), g.mainStatus, None, None)))
    else if HeadAt(g, task.path.value).None? then None
    else
      Some(d.(checkpoints := Checkpoints(MainHead(g), g.mainStatus, HeadAt(g, task.path.value),
                                         Some(g.trees[task.path.value].status))))
  }

  datatype SaveResult = SavedAs(doc: Doc) | SaveFails(fault: Option<Fault>)

  /** `_save`. A `GitError` from the checkpoint is classifiable, a state file error is not. */
  function Save(d: Doc, g: Git, choice: SaveChoice): SaveResult
    requires HasMain(g)
  {
    match choice
    case CheckpointFails(message) => SaveFails(Some(Fault(GitKind, Reported(message))))
    case StorageFails => SaveFails(None)
    case SaveWorks =>
      if Checkpoint(d, g).None? then SaveFails(Some(Fault(GitKind, Own(HeadUnreadable))))
      else SavedAs(Checkpoint(d, g).value)
  }

  // ---------------------------------------------------------------- advance

  datatype Status = Advanced | InputRequiredStatus | InputUnavailable | OperationalFailureStatus | TerminalStatus

  /** How `advance()` ended: it returned an outcome, or an exception left it. */
  datatype Result =
    | Returned(status: Status, phaseBefore: Phase, phaseAfter: Phase, error: Option<Message>)
    | Escaped

  /** The in-memory state afterwards, the document written last (if any), and the repository. */
  datatype Step = Step(mem: Doc, disk: Option<Doc>, git: Git, result: Result)

  /** `_handle_operational_failure` up to the save. */
  function WithFailure(d: Doc, g: Git, f: Fault, failedPhase: Phase): Doc {
    d.(lastError := Some(FailureRecord(f, failedPhase)), phase := OperationalFailure,
       checkpoints := RefreshAfterBuild(d, g, failedPhase))
  }

  function RefreshAfterBuild(d: Doc, g: Git, failedPhase: Phase): Checkpoints {
    if failedPhase.Building? && d.body.task.path.Some? && HeadAt(g, d.body.task.path.value).Some?
    then d.checkpoints.(taskHead := HeadAt(g, d.body.task.path.value), taskStatus := Some(g.trees[d.body.task.path.value].status))
    else d.checkpoints
  }

  function FailOperationally(d: Doc, g: Git, f: Fault, failedPhase: Phase, before: Phase, choice: SaveChoice): (s: Step)
    requires HasMain(g)
    ensures s.git == g
  {
    var d1 := WithFailure(d, g, f, failedPhase);
    match Save(d1, g, choice)
    case SavedAs(d2) => Step(d2, Some(d2), g, Returned(OperationalFailureStatus, before, OperationalFailure, Some(f.message)))
    case SaveFails(_) => Step(d1, None, g, Escaped)
  }

  /** `record_external_failure`, the failed phase being the one an earlier failure interrupted. */
  function StartupFailure(d: Doc, g: Git, message: string, save: SaveChoice): Step
    requires HasMain(g)
  {
    FailOperationally(d, g, Fault(ServerStartupKind, Reported(message)), EffectivePhase(d), d.phase, save)
  }

  function FailTerminally(d: Doc, g: Git, reason: Reason, before: Phase, i: StepInput): (s: Step)
    requires HasMain(g)
    ensures s.git == g
  {
    var d1 := d.(lastError := Some(TerminalRecord(reason, before)), phase := Failed);
    match Save(d1, g, i.failureSave)
    case SavedAs(d2) => Step(d2, Some(d2), g, Returned(TerminalStatus, before, Failed, Some(Own(reason))))
    case SaveFails(_) => Step(d1, None, g, Escaped)
  }

  function ResetRetries(d: Doc, before: Phase): Doc {
    if before.OperationalFailure? then d else d.(operationalRetries := 0)
  }

  /** `_save_after_transition`. */
  function SaveAfterTransition(d: Doc, g: Git, before: Phase, status: Status, i: StepInput): (s: Step)
    requires HasMain(g)
    ensures s.git == g
  {
    var target := if IsTerminal(d.phase) then before else d.phase;
    SavedOrFailed(if status.InputUnavailable? then d else ResetRetries(d, before), g, target, before, status, i)
  }

  function SavedOrFailed(d: Doc, g: Git, target: Phase, before: Phase, status: Status, i: StepInput): (s: Step)
    requires HasMain(g)
    ensures s.git == g
  {
    match Save(d, g, i.save)
    case SavedAs(d2) => Step(d2, Some(d2), g, Returned(status, before, d2.phase, None))
    case SaveFails(Some(f)) => FailOperationally(d, g, f, target, before, i.failureSave)
    case SaveFails(None) => Step(d, None, g, Escaped)
  }

  /** The save on the `_InputRequiredSignal` path, whose failure is not classified. */
  function SaveAfterSignal(d: Doc, g: Git, before: Phase, i: StepInput): (s: Step)
    requires HasMain(g)
    ensures s.git == g
  {
    var d1 := ResetRetries(d, before);
    match Save(d1, g, i.save)
    case SavedAs(d2) => Step(d2, Some(d2), g, Returned(InputRequiredStatus, before, d2.phase, None))
    case SaveFails(_) => Step(d1, None, g, Escaped)
  }

  function SuccessStatus(before: Phase, after: Phase, i: StepInput): Status {
    if before.AwaitingInput? then (if i.answer.Some? then Advanced else InputUnavailable)
    else if after.AwaitingInput? then InputRequiredStatus
    else Advanced
  }

  /** The document in memory once a dispatch is over. */
  function InMemory(d: Doc, x: Dispatched): Doc {
    d.(body := x.body, phase := x.phase,
       lastError := if d.phase.OperationalFailure? && x.raise.NoRaise? then None else d.lastError)
  }

  /** What `advance()` makes of a dispatch, however it ended. */
  function Concluded(d: Doc, x: Dispatched, i: StepInput): (s: Step)
    requires HasMain(x.git)
    ensures s.git == x.git
  {
    var e := InMemory(d, x);
    match x.raise
    case NoRaise => SaveAfterTransition(e, x.git, d.phase, SuccessStatus(d.phase, x.phase, i), i)
    case InputRequired => SaveAfterSignal(e, x.git, d.phase, i)
    case Operational(f) => FailOperationally(e, x.git, f, d.phase, d.phase, i.failureSave)
    case LoopFailure(reason) => FailTerminally(e, x.git, reason, d.phase, i)
    case Escapes => Step(e, None, x.git, Escaped)
  }

  /** `Supervisor.advance`. */
  function Advance(d: Doc, g: Git, i: StepInput): Step
    requires HasMain(g) && |i.runs| == |d.body.options.verifyCommands|
  {
    if IsTerminal(d.phase) then Step(d, None, g, Returned(TerminalStatus, d.phase, d.phase, None))
    else Concluded(d, Dispatch(d, g, i), i)
  }

  // -------------------------------------------------------------------- run

  /** The condition under which `run()` retries an operational failure by itself. */
  predicate MayRetry(d: Doc) {
    && d.phase.OperationalFailure? && d.lastError.Some?
    && d.lastError.value.retryable && !d.lastError.value.requiresRepair
    && d.operationalRetries < d.body.options.maxOperationalRetries
  }

  /** How `run()` ends: in a terminal phase, out of answers or steps, with a failure it does not
      retry, or with an exception. */
  datatype Ended = Finished | Paused | Failing | Crashed

  /** One iteration of `run()`: it goes on with a document, or stops. */
  datatype Iteration = GoesOn(doc: Doc, git: Git) | Stops(doc: Doc, git: Git, ended: Ended)

  function Iterate(d: Doc, g: Git, i: StepInput): Iteration
    requires HasMain(g) && |i.runs| == |d.body.options.verifyCommands|
  {
    if IsTerminal(d.phase) then Stops(d, g, Finished) else Continuation(d, Dispatch(d, g, i), i)
  }

  function Continuation(d: Doc, x: Dispatched, i: StepInput): Iteration
    requires HasMain(x.git)
  {
    var s := Concluded(d, x, i);
    AfterStep(s.mem, x.git, s.result, i.retrySave)
  }

  /** What `run()` does once `advance()` is over. */
  function AfterStep(d: Doc, g: Git, result: Result, retrySave: SaveChoice): Iteration
    requires HasMain(g)
  {
    match result
    case Escaped => Stops(d, g, Crashed)
    case Returned(status, _, _, _) =>
      match status
      case InputUnavailable => Stops(d, g, Paused)
      case TerminalStatus => Stops(d, g, Finished)
      case OperationalFailureStatus => if MayRetry(d) then CountRetry(d, g, retrySave) else Stops(d, g, Failing)
      case _ => GoesOn(d, g)
  }

  function CountRetry(d: Doc, g: Git, choice: SaveChoice): Iteration
    requires HasMain(g)
  {
    var d1 := d.(operationalRetries := d.operationalRetries + 1);
    match Save(d1, g, choice)
    case SavedAs(d2) => GoesOn(d2, g)
    case SaveFails(_) => Stops(d1, g, Crashed)
  }
}
