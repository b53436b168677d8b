/** The persisted run document and its strict reader, `RunState.from_dict`. */
module Document {
  import opened Text
  import opened Contracts

  // ---------------------------------------------------------------- phases

  datatype Phase =
    | Planning | Architecting | Building | Verifying | Auditing | AwaitingInput | Done | Failed
    | CreatingWorktree | RecordingDecision | Merging | CleanupWorktree | CleanupBranch
    | OperationalFailure

  predicate IsTerminal(p: Phase) {
    p.Done? || p.Failed?
  }

  /** Phases an error record may name as its retry target. */
  predicate IsRetryTarget(p: Phase) {
    !IsTerminal(p) && !p.OperationalFailure?
  }

  predicate IsPreVerification(p: Phase) {
    p.Planning? || p.CreatingWorktree? || p.Architecting? || p.RecordingDecision? || p.Building? || p.AwaitingInput?
  }

  predicate IsPostBuild(p: Phase) {
    p.Verifying? || p.Auditing? || IsMergeOrCleanup(p)
  }

  predicate IsMergeOrCleanup(p: Phase) {
    p.Merging? || p.CleanupWorktree? || p.CleanupBranch?
  }

  predicate IsTaskPhase(p: Phase) {
    p.Architecting? || p.RecordingDecision? || p.Building? || IsPostBuild(p)
  }

  // ------------------------------------------------------------ components

  /** The run-defining limits and command lists, captured once and never changed. */
  datatype Options = Options(
    maxAcceptedTasks: nat,
    maxRevisions: nat,
    maxReplans: nat,
    maxArchitectRetries: nat,
    maxGuidanceAttempts: nat,
    maxOperationalRetries: nat,
    requireApproval: bool,
    provisionCommands: seq<string>,
    verifyCommands: seq<string>)

  datatype Origin = FromPlanner | FromAuditor

  datatype DecisionRequest = DecisionRequest(origin: Origin, question: string, rationale: string)

  datatype ErrorKind =
    | MergeConflictKind | TimeoutKind | AgentInvocationKind | GitKind | DecisionKind
    | ServerStartupKind | ContractKind | ProvisioningKind | TerminalKind | UnknownKind

  /** The supervisor's own fixed, non-empty messages. */
  datatype Reason =
    | TaskStillActive | NoWorktreeIntent | NoPlannerResult | NoTaskId | NoDecision | NoArchitectResult | NoAdr
    | NoAdrIntent | TargetNotAllowed | HashMismatch | DifferentContent | FilesystemError
    | NoWorktree | WrongBranch | NotClean | NotAHash | Unresolvable | NotTheHead | NoNewCommits | EmptyTaskId
    | PathMismatch | BranchMismatch | BaseGone | PartialState | Unregistered | UnexpectedHead
    | CommitGone | Diverged | WrongParents | MergeFailed | NotRestorable | Conflict | NotIntegrated | CheckedOutBranch
    | NotReachable | BranchMoved | TaskHeadMoved | NoMergeIntent | HeadUnreadable
    | OtherQuestion | IdentityDrift | TooManyRetries | TooManyRevisions | TooManyReplans | Abandoned | NoCommitHash
    | IncompletePlan | NoErrorRecord | NotRetryable | NoRetryPhase
    | NeedInput | ApproveDecision | GiveGuidance | RejectedProposal | UnknownAnswer

  /** A message text: one of our own, or text reported from outside, which may be empty. */
  datatype Message = Own(reason: Reason) | Reported(text: string)

  predicate SaysSomething(m: Message) {
    m.Reported? ==> m.text != ""
  }

  datatype ErrorRecord = ErrorRecord(
    kind: ErrorKind,
    operation: Phase,
    failedPhase: Phase,
    retryPhase: Option<Phase>,
    message: Message,
    retryable: bool,
    requiresRepair: bool)

  datatype QuestionKind = ArchitectInput | DecisionApproval | BuilderGuidance | BuilderEscalation

  datatype QuestionContext =
    | AboutQuestion(question: string)
    | AboutAdr(title: string, decision: string)
    | AboutStatus(status: BuilderStatus)

  datatype PendingQuestion = PendingQuestion(
    kind: QuestionKind,
    message: Message,
    context: QuestionContext,
    answer: Option<string>)

  datatype CommandRecord = CommandRecord(
    command: string,
    ok: bool,
    returncode: Option<int>,
    timedOut: bool,
    log: nat)

  datatype VerificationResult = VerificationResult(ok: bool, commands: seq<CommandRecord>)

  datatype CompletedTask = CompletedTask(taskId: string, objective: string, rationale: string)

  /** Where an ADR is to be written: the worktree whose decisions directory it goes to, and its name. */
  datatype AdrPath = AdrPath(worktree: string, name: string)

  /** File contents as far as they are compared: an ADR as rendered, or anything else. A digest
      is modelled by the contents it is taken of. */
  datatype FileText = Rendered(adr: Adr) | OtherText(text: string)

  /** One line of a status listing. */
  datatype StatusLine = UntrackedAdr(name: string) | OtherLine(text: string)

  /** The identity of a run and its repository, fixed when the run starts. */
  datatype Header = Header(
    runId: string,
    commonDir: string,
    integrationPath: string,
    integrationBranch: string,
    startCommit: string)

  /** The task identity fields: all present or all null. */
  datatype Task = Task(id: Option<string>, path: Option<string>, branch: Option<string>, base: Option<string>)

  datatype Results = Results(
    planner: Option<PlannerResult>,
    architect: Option<ArchitectResult>,
    builder: Option<BuilderResult>,
    verification: Option<VerificationResult>,
    auditor: Option<AuditorResult>,
    decision: Option<DecisionRequest>,
    completed: Option<CompletedTask>)

  datatype Counters = Counters(accepted: int, revisions: int, replans: int, architectRetries: int, guidance: int)

  /** Durable intents: the worktree to create, the ADR to write, the merge to make. */
  datatype Intents = Intents(
    treePath: Option<string>,
    treeBranch: Option<string>,
    treeBase: Option<string>,
    adrPath: Option<AdrPath>,
    adrHash: Option<FileText>,
    mergePre: Option<string>,
    mergeTask: Option<string>,
    mergeCommit: Option<string>)

  /** The fields only a phase changes. */
  datatype Body = Body(
    header: Header,
    options: Options,
    task: Task,
    results: Results,
    counters: Counters,
    question: Option<PendingQuestion>,
    lastTaskHead: Option<string>,
    intents: Intents)

  /** The Git checkpoints every save refreshes. A status snapshot is the list of its lines. */
  datatype Checkpoints = Checkpoints(
    mainHead: string,
    mainStatus: seq<StatusLine>,
    taskHead: Option<string>,
    taskStatus: Option<seq<StatusLine>>)

  /** What `RunState.to_dict` writes, its flat fields grouped by who changes them. */
  datatype Doc = Doc(
    body: Body,
    phase: Phase,
    lastError: Option<ErrorRecord>,
    operationalRetries: int,
    checkpoints: Checkpoints)

  // ------------------------------------------------------- component rules

  /** `OperationalErrorRecord.from_dict`. */
  predicate ValidRecord(r: ErrorRecord) {
    && SaysSomething(r.message)
    && (r.requiresRepair ==> r.retryable)
    && r.operation == r.failedPhase
    && (if r.retryable
        then r.retryPhase.Some? && IsRetryTarget(r.retryPhase.value) && r.retryPhase.value == r.failedPhase
        else r.retryPhase.None?)
  }

  /** `DecisionRequest.from_dict`. */
  predicate ValidDecision(d: DecisionRequest) {
    d.question != "" && d.rationale != ""
  }

  predicate ExpectedOk(c: CommandRecord) {
    !c.timedOut && c.returncode == Some(0)
  }

  predicate ValidCommandRecord(c: CommandRecord) {
    && c.command != ""
    && (c.timedOut ==> c.returncode.None?)
    && c.ok == ExpectedOk(c)
  }

  /** `validate_verification_result`. */
  predicate ValidVerification(v: VerificationResult) {
    && (forall i :: 0 <= i < |v.commands| ==> ValidCommandRecord(v.commands[i]))
    && v.ok == forall i :: 0 <= i < |v.commands| ==> ExpectedOk(v.commands[i])
  }

  /** `_validate_pending_question`: the context shape belongs to the kind and holds no empty text. */
  predicate ValidQuestion(q: PendingQuestion) {
    && SaysSomething(q.message)
    && match q.kind
       case ArchitectInput => q.context.AboutQuestion? && q.context.question != ""
       case DecisionApproval => q.context.AboutAdr? && q.context.title != "" && q.context.decision != ""
       case BuilderGuidance => q.context.AboutStatus? && !q.context.status.Complete?
       case BuilderEscalation => q.context.AboutStatus? && !q.context.status.Complete?
  }

  predicate ValidCompletedTask(t: CompletedTask) {
    t.taskId != "" && t.objective != "" && t.rationale != ""
  }

  // ------------------------------------------------------------ the reader

  predicate HeaderOk(h: Header) {
    h.runId != "" && h.commonDir != "" && h.integrationPath != "" && h.integrationBranch != "" && h.startCommit != ""
  }

  /** `RunOptions.from_dict`, as far as it concerns the modelled options. */
  predicate OptionsOk(o: Options) {
    && (forall k :: 0 <= k < |o.provisionCommands| ==> o.provisionCommands[k] != "")
    && (forall k :: 0 <= k < |o.verifyCommands| ==> o.verifyCommands[k] != "")
  }

  predicate CountersOk(c: Counters) {
    c.accepted >= 0 && c.revisions >= 0 && c.replans >= 0 && c.architectRetries >= 0 && c.guidance >= 0
  }

  predicate IntentsOk(n: Intents) {
    && NullOrNonEmpty(n.treePath) && NullOrNonEmpty(n.treeBranch) && NullOrNonEmpty(n.treeBase)
    && (n.adrPath.Some? ==> n.adrPath.value.name != "")
    && NullOrNonEmpty(n.mergePre) && NullOrNonEmpty(n.mergeTask) && NullOrNonEmpty(n.mergeCommit)
  }

  /** The part of `_validate_scalar_types` about fields a save does not refresh. */
  predicate BodyScalarsOk(b: Body) {
    HeaderOk(b.header) && CountersOk(b.counters) && IntentsOk(b.intents) && NullOrNonEmpty(b.lastTaskHead)
  }

  /** `_validate_nested_results`. */
  predicate ResultsOk(r: Results) {
    && (r.completed.Some? ==> ValidCompletedTask(r.completed.value))
    && (r.planner.Some? ==> ValidPlanner(r.planner.value))
    && (r.architect.Some? ==> ValidArchitect(r.architect.value))
    && (r.builder.Some? ==> ValidBuilder(r.builder.value))
    && (r.auditor.Some? ==> ValidAuditor(r.auditor.value))
    && (r.verification.Some? ==> ValidVerification(r.verification.value))
    && SameTaskAcrossRoles(r)
  }

  /** Builder and current (non-REPLAN) auditor results must name the planner's task. */
  predicate SameTaskAcrossRoles(r: Results) {
    r.planner.Some? && r.planner.value.taskId.Some? ==>
      && (r.builder.Some? ==> r.builder.value.taskId == r.planner.value.taskId.value)
      && (r.auditor.Some? && !r.auditor.value.disposition.Replan? ==>
            r.auditor.value.taskId == r.planner.value.taskId.value)
  }

  predicate NoTask(t: Task) {
    t == Task(None, None, None, None)
  }

  /** `_require_full_task_identity`. */
  predicate FullTask(t: Task) {
    PresentNonEmpty(t.id) && PresentNonEmpty(t.path) && PresentNonEmpty(t.branch) && PresentNonEmpty(t.base)
  }

  function EffectivePhase(d: Doc): Phase {
    if d.phase.OperationalFailure? && d.lastError.Some? && d.lastError.value.retryPhase.Some?
    then d.lastError.value.retryPhase.value
    else d.phase
  }

  /** `_validate_task_identity`: all four fields or none, with the matching checkpoints. The
      status snapshot may be missing where the worktree has intentionally been removed. */
  predicate TaskIdentityOk(t: Task, c: Checkpoints, worktreeAbsent: bool) {
    if NoTask(t) then c.taskHead.None? && c.taskStatus.None?
    else FullTask(t) && PresentNonEmpty(c.taskHead) && (worktreeAbsent || c.taskStatus.Some?)
  }

  /** `_validate_decision_relationships`. */
  predicate DecisionMatches(r: Results, requireAnswer: bool) {
    && r.decision.Some? && r.planner.Some?
    && var decision, planner := r.decision.value, r.planner.value;
    && (match decision.origin
        case FromPlanner =>
          && planner.decisionRequired
          && planner.decisionQuestion == Some(decision.question)
          && planner.decisionRationale == Some(decision.rationale)
        case FromAuditor =>
          && r.auditor.Some?
          && planner.taskId == Some(r.auditor.value.taskId)
          && r.auditor.value.decisionRequired
          && r.auditor.value.decisionQuestion == Some(decision.question)
          && r.auditor.value.decisionRationale == Some(decision.rationale))
    && (requireAnswer && r.architect.Some? ==> r.architect.value.question == decision.question)
  }

  /** `_validate_pending_context_matches_source`. */
  predicate QuestionMatchesSource(r: Results, q: PendingQuestion) {
    match q.kind
    case BuilderGuidance => r.builder.Some? && q.context == AboutStatus(r.builder.value.status)
    case BuilderEscalation => r.builder.Some? && q.context == AboutStatus(r.builder.value.status)
    case ArchitectInput =>
      DecisionMatches(r, true) && q.context == AboutQuestion(r.decision.value.question)
    case DecisionApproval =>
      && DecisionMatches(r, true)
      && r.architect.Some? && r.architect.value.adr.Some?
      && q.context == AboutAdr(r.architect.value.adr.value.title, r.architect.value.adr.value.decision)
  }

  /** A question kept outside awaiting_input: only answered guidance for the phase that reads it. */
  predicate GuidanceFor(r: Results, q: PendingQuestion, p: Phase) {
    && q.answer.Some?
    && ((p.Architecting? && q.kind.ArchitectInput?) || (p.Building? && q.kind.BuilderGuidance?))
    && QuestionMatchesSource(r, q)
  }

  /** `_validate_pending_question_phase`, `p` being the failed phase where the run has failed. */
  predicate QuestionAllowed(b: Body, p: Phase) {
    b.question.Some? && !p.AwaitingInput? ==> GuidanceFor(b.results, b.question.value, p)
  }

  predicate IsReportedCommit(s: string) {
    7 <= |s| <= 40 && forall i :: 0 <= i < |s| ==> IsHex(s[i])
  }

  predicate IsCanonicalCommit(s: string) {
    |s| == 40 && forall i :: 0 <= i < |s| ==> IsHex(s[i])
  }

  /** `_commit_ids_match`: a case-insensitive prefix. */
  predicate CommitIdsMatch(reported: string, canonical: string) {
    Lower(reported) <= Lower(canonical)
  }

  predicate PlannerReady(r: Results) {
    r.planner.Some? && r.planner.value.status.Ready?
  }

  /** `_validate_verification_for_phase`. */
  predicate VerificationFits(v: Option<VerificationResult>, configured: seq<string>, p: Phase) {
    if IsPreVerification(p) then v.None?
    else if p.Verifying? then configured != [] && v.None?
    else if IsPostBuild(p) then
      v.Some? == (configured != []) && (v.Some? ==> CommandTexts(v.value.commands) == configured)
    else true
  }

  function CommandTexts(cs: seq<CommandRecord>): seq<string> {
    seq(|cs|, i requires 0 <= i < |cs| => cs[i].command)
  }

  predicate AwaitingSourceOk(r: Results, question: Option<PendingQuestion>) {
    && question.Some?
    && QuestionMatchesSource(r, question.value)
    && match question.value.kind
       case BuilderGuidance => r.builder.Some? && !r.builder.value.status.Complete?
       case BuilderEscalation => r.builder.Some? && !r.builder.value.status.Complete?
       case ArchitectInput => r.architect.Some?
       case DecisionApproval => r.architect.Some? && r.architect.value.status.Decided?
  }

  predicate BuiltOk(r: Results, lastTaskHead: Option<string>) {
    && r.builder.Some? && r.builder.value.status.Complete?
    && r.builder.value.commit.Some? && IsReportedCommit(r.builder.value.commit.value)
    && lastTaskHead.Some? && IsCanonicalCommit(lastTaskHead.value)
    && CommitIdsMatch(r.builder.value.commit.value, lastTaskHead.value)
  }

  predicate MergeIntentOk(b: Body, p: Phase) {
    && b.intents.mergeTask == b.lastTaskHead
    && b.intents.mergePre.Some?
    && (p.Merging? || b.intents.mergeCommit.Some?)
    && b.results.auditor.Some? && b.results.auditor.value.disposition.Accept?
  }

  /** The part of `_validate_effective_phase_requirements` that looks at no checkpoint. */
  predicate PhaseFacts(b: Body, p: Phase) {
    && VerificationFits(b.results.verification, b.options.verifyCommands, p)
    && (p.AwaitingInput? || p.CreatingWorktree? || IsTaskPhase(p) ==> PlannerReady(b.results))
    && (p.AwaitingInput? || IsTaskPhase(p) ==> FullTask(b.task))
    && (p.CreatingWorktree? ==>
          && PresentNonEmpty(b.intents.treePath) && PresentNonEmpty(b.intents.treeBranch)
          && PresentNonEmpty(b.intents.treeBase)
          && NoTask(b.task)
          && PresentNonEmpty(b.results.planner.value.taskId))
    && (p.AwaitingInput? ==> AwaitingSourceOk(b.results, b.question))
    && (p.Architecting? ==> DecisionMatches(b.results, b.question.Some?))
    && (p.RecordingDecision? ==>
          && b.intents.adrPath.Some? && b.intents.adrHash.Some?
          && DecisionMatches(b.results, true)
          && b.results.architect.Some? && b.results.architect.value.status.Decided?)
    && (IsPostBuild(p) ==> BuiltOk(b.results, b.lastTaskHead))
    && (IsMergeOrCleanup(p) ==> MergeIntentOk(b, p))
    && (p.Done? ==> NoTask(b.task))
  }

  /** `_validate_effective_phase_requirements`. */
  predicate PhaseRequirements(b: Body, c: Checkpoints, p: Phase) {
    && PhaseFacts(b, p)
    && (p.CreatingWorktree? ==> c.taskHead.None? && c.taskStatus.None?)
    && (IsPostBuild(p) ==> c.taskHead == b.lastTaskHead)
  }

  /** The rules on `last_error` in `_validate_phase_invariants`. */
  predicate ErrorOk(phase: Phase, lastError: Option<ErrorRecord>) {
    && (lastError.Some? ==>
          && ValidRecord(lastError.value)
          && (phase.OperationalFailure? ==> lastError.value.retryable)
          && (phase.Failed? ==> !lastError.value.retryable))
    && (phase.OperationalFailure? || phase.Failed? ==> lastError.Some?)
  }

  /** The phase whose rules apply to a retained question. */
  function QuestionPhase(d: Doc): Phase {
    if d.phase.Failed? && d.lastError.Some? then d.lastError.value.failedPhase else EffectivePhase(d)
  }

  /** A failed state is held to the guidance rule even where the run failed in awaiting_input. */
  predicate RetainedQuestionOk(d: Doc) {
    if d.phase.Failed? && d.body.question.Some?
    then GuidanceFor(d.body.results, d.body.question.value, QuestionPhase(d))
    else QuestionAllowed(d.body, QuestionPhase(d))
  }

  /** The rules that look at no checkpoint and no effective phase. */
  predicate BodyOk(b: Body) {
    && BodyScalarsOk(b)
    && OptionsOk(b.options)
    && ResultsOk(b.results)
    && (b.question.Some? ==> ValidQuestion(b.question.value))
    && (b.results.decision.Some? ==> ValidDecision(b.results.decision.value))
  }

  /** True exactly of the documents `RunState.from_dict` turns back into a run state. */
  predicate Loads(d: Doc) {
    && BodyOk(d.body)
    && d.checkpoints.mainHead != ""
    && NullOrNonEmpty(d.checkpoints.taskHead)
    && d.operationalRetries >= 0
    && TaskIdentityOk(d.body.task, d.checkpoints, EffectivePhase(d).CleanupBranch?)
    && ErrorOk(d.phase, d.lastError)
    && PhaseRequirements(d.body, d.checkpoints, EffectivePhase(d))
    && RetainedQuestionOk(d)
  }
}
