/** `RunState.from_dict`: validator by validator, the first complaint ends the reading. */
module StateReader {
  import opened Text
  import opened Contracts
  import opened Document
  import opened State

  /** The validator that complained. */
  datatype StateError =
    | BadOptions | BadScalar | BadCompletedTask | BadRoleResult | BadVerification | OtherTask | BadQuestion
    | BadTaskIdentity | BadErrorRecord | ErrorForbidden | ErrorMissing | BadDecision | BadPhase | BadSource | BadRetained

  datatype Check = Pass | Fail(error: StateError) {
    predicate IsFailure() {
      Fail?
    }

    function PropagateFailure(): Check
      requires IsFailure()
    {
      this
    }
  }

  function Demand(condition: bool, error: StateError): Check {
    if condition then Pass else Fail(error)
  }

  // --------------------------------------------------------------- scalars

  method RequireStrings(values: seq<string>, error: StateError) returns (c: Check)
    ensures c.Pass? <==> forall k :: 0 <= k < |values| ==> values[k] != ""
  {
    for n := 0 to |values|
      invariant forall k :: 0 <= k < n ==> values[k] != ""
    {
      :- Demand(values[n] != "", error);
    }
    return Pass;
  }

  method RequireOptionalStrings(values: seq<Option<string>>) returns (c: Check)
    ensures c.Pass? <==> forall k :: 0 <= k < |values| ==> NullOrNonEmpty(values[k])
  {
    for n := 0 to |values|
      invariant forall k :: 0 <= k < n ==> NullOrNonEmpty(values[k])
    {
      :- Demand(values[n] != Some(""), BadScalar);
    }
    return Pass;
  }

  method RequireCounters(values: seq<int>) returns (c: Check)
    ensures c.Pass? <==> forall k :: 0 <= k < |values| ==> values[k] >= 0
  {
    for n := 0 to |values|
      invariant forall k :: 0 <= k < n ==> values[k] >= 0
    {
      :- Demand(values[n] >= 0, BadScalar);
    }
    return Pass;
  }

  /** `RunOptions.from_dict`. */
  method ReadOptions(o: Options) returns (c: Check)
    ensures c.Pass? <==> OptionsOk(o)
  {
    var provision, verify := o.provisionCommands, o.verifyCommands;
    :- RequireStrings(provision, BadOptions);
    :- RequireStrings(verify, BadOptions);
    return Pass;
  }

  predicate ScalarsOk(d: Doc) {
    BodyScalarsOk(d.body) && d.checkpoints.mainHead != "" && NullOrNonEmpty(d.checkpoints.taskHead) && d.operationalRetries >= 0
  }

  /** `_validate_scalar_types`. */
  method ValidateScalarTypes(d: Doc) returns (c: Check)
    ensures c.Pass? <==> ScalarsOk(d)
  {
    var h, k, n := d.body.header, d.body.counters, d.body.intents;
    var texts := [h.runId, h.commonDir, h.integrationPath, h.integrationBranch, h.startCommit, d.checkpoints.mainHead];
    var counters := [k.accepted, k.revisions, k.replans, k.architectRetries, k.guidance, d.operationalRetries];
    var optional := [d.checkpoints.taskHead, d.body.lastTaskHead, n.treePath, n.treeBranch, n.treeBase, n.mergePre,
                     n.mergeTask, n.mergeCommit];
    assert (forall j :: 0 <= j < |texts| ==> texts[j] != "") <==> HeaderOk(h) && d.checkpoints.mainHead != "" by {
      assert texts[0] == h.runId && texts[1] == h.commonDir && texts[2] == h.integrationPath
          && texts[3] == h.integrationBranch && texts[4] == h.startCommit && texts[5] == d.checkpoints.mainHead;
    }
    :- RequireStrings(texts, BadScalar);
    assert (forall j :: 0 <= j < |counters| ==> counters[j] >= 0) <==> CountersOk(k) && d.operationalRetries >= 0 by {
      assert counters[0] == k.accepted && counters[1] == k.revisions && counters[2] == k.replans
          && counters[3] == k.architectRetries && counters[4] == k.guidance && counters[5] == d.operationalRetries;
    }
    :- RequireCounters(counters);
    assert (forall j :: 0 <= j < |optional| ==> NullOrNonEmpty(optional[j])) ==> OptionalOk(d) by {
      assert optional[0] == d.checkpoints.taskHead && optional[1] == d.body.lastTaskHead && optional[2] == n.treePath
          && optional[3] == n.treeBranch && optional[4] == n.treeBase && optional[5] == n.mergePre
          && optional[6] == n.mergeTask && optional[7] == n.mergeCommit;
    }
    :- RequireOptionalStrings(optional);
    :- Demand(n.adrPath.Some? ==> n.adrPath.value.name != "", BadScalar);
    return Pass;
  }

  predicate OptionalOk(d: Doc) {
    var n := d.body.intents;
    && NullOrNonEmpty(d.checkpoints.taskHead) && NullOrNonEmpty(d.body.lastTaskHead)
    && NullOrNonEmpty(n.treePath) && NullOrNonEmpty(n.treeBranch) && NullOrNonEmpty(n.treeBase)
    && NullOrNonEmpty(n.mergePre) && NullOrNonEmpty(n.mergeTask) && NullOrNonEmpty(n.mergeCommit)
  }

  // --------------------------------------------------------- nested results

  /** `validate_verification_result`. */
  method ValidateVerificationResult(v: VerificationResult) returns (c: Check)
    ensures c.Pass? <==> ValidVerification(v)
  {
    var allOk := true;
    for n := 0 to |v.commands|
      invariant forall k :: 0 <= k < n ==> ValidCommandRecord(v.commands[k])
      invariant allOk == forall k :: 0 <= k < n ==> ExpectedOk(v.commands[k])
    {
      var command := v.commands[n];
      :- Demand(command.command != "", BadVerification);
      :- Demand(command.timedOut ==> command.returncode.None?, BadVerification);
      var expected := !command.timedOut && command.returncode == Some(0);
      :- Demand(command.ok == expected, BadVerification);
      allOk := allOk && expected;
    }
    :- Demand(v.ok == allOk, BadVerification);
    return Pass;
  }

  /** `_validate_nested_results`. */
  method ValidateNestedResults(r: Results) returns (c: Check)
    ensures c.Pass? <==> ResultsOk(r)
  {
    if r.completed.Some? {
      var t := r.completed.value;
      :- Demand(t.taskId != "" && t.objective != "" && t.rationale != "", BadCompletedTask);
    }
    :- Demand(r.planner.Some? ==> ValidPlanner(r.planner.value), BadRoleResult);
    :- Demand(r.architect.Some? ==> ValidArchitect(r.architect.value), BadRoleResult);
    :- Demand(r.builder.Some? ==> ValidBuilder(r.builder.value), BadRoleResult);
    :- Demand(r.auditor.Some? ==> ValidAuditor(r.auditor.value), BadRoleResult);
    if r.verification.Some? {
      :- ValidateVerificationResult(r.verification.value);
    }
    if r.planner.Some? && r.planner.value.taskId.Some? {
      var taskId := r.planner.value.taskId.value;
      :- Demand(r.builder.Some? ==> r.builder.value.taskId == taskId, OtherTask);
      if r.auditor.Some? && !r.auditor.value.disposition.Replan? {
        :- Demand(r.auditor.value.taskId == taskId, OtherTask);
      }
    }
    return Pass;
  }

  /** `_validate_pending_question`. */
  method ValidatePendingQuestion(question: Option<PendingQuestion>) returns (c: Check)
    ensures c.Pass? <==> (question.Some? ==> ValidQuestion(question.value))
  {
    if question.None? {
      return Pass;
    }
    var q := question.value;
    :- Demand(SaysSomething(q.message), BadQuestion);
    match q.kind {
      case ArchitectInput => :- Demand(q.context.AboutQuestion? && q.context.question != "", BadQuestion);
      case DecisionApproval =>
        :- Demand(q.context.AboutAdr? && q.context.title != "" && q.context.decision != "", BadQuestion);
      case _ => :- Demand(q.context.AboutStatus? && !q.context.status.Complete?, BadQuestion);
    }
    return Pass;
  }

  // ---------------------------------------------------------- task identity

  /** `_worktree_is_absent_phase`. */
  predicate WorktreeIsAbsent(d: Doc) {
    || d.phase.CleanupBranch?
    || (d.phase.OperationalFailure? && d.lastError.Some? && d.lastError.value.retryPhase == Some(CleanupBranch))
  }

  /** `_validate_task_identity`. */
  method ValidateTaskIdentity(t: Task, k: Checkpoints, worktreeAbsent: bool) returns (c: Check)
    ensures c.Pass? <==> TaskIdentityOk(t, k, worktreeAbsent)
  {
    var present := (if t.id.Some? then 1 else 0) + (if t.path.Some? then 1 else 0)
                 + (if t.branch.Some? then 1 else 0) + (if t.base.Some? then 1 else 0);
    if present == 0 {
      :- Demand(k.taskHead.None? && k.taskStatus.None?, BadTaskIdentity);
      return Pass;
    }
    :- Demand(present == 4, BadTaskIdentity);
    var values := [t.id.value, t.path.value, t.branch.value, t.base.value];
    assert values[0] == t.id.value && values[1] == t.path.value && values[2] == t.branch.value && values[3] == t.base.value;
    :- RequireStrings(values, BadTaskIdentity);
    :- Demand(PresentNonEmpty(k.taskHead), BadTaskIdentity);
    :- Demand(worktreeAbsent || k.taskStatus.Some?, BadTaskIdentity);
    return Pass;
  }

  // -------------------------------------------------------------- invariants

  /** `OperationalErrorRecord.from_dict`. */
  method ReadErrorRecord(r: ErrorRecord) returns (c: Check)
    ensures c.Pass? <==> ValidRecord(r)
  {
    var retryPhase := r.retryPhase;
    :- Demand(SaysSomething(r.message), BadErrorRecord);
    :- Demand(r.requiresRepair ==> r.retryable, BadErrorRecord);
    :- Demand(r.operation == r.failedPhase, BadErrorRecord);
    if r.retryable {
      :- Demand(retryPhase.Some?, BadErrorRecord);
      :- Demand(IsRetryTarget(retryPhase.value), BadErrorRecord);
      :- Demand(retryPhase.value == r.failedPhase, BadErrorRecord);
    } else {
      :- Demand(retryPhase.None?, BadErrorRecord);
    }
    return Pass;
  }

  /** `_validate_decision_relationships`. */
  method ValidateDecisionRelationships(r: Results, requireAnswer: bool) returns (c: Check)
    ensures c.Pass? <==> DecisionMatches(r, requireAnswer)
  {
    var present := r.decision.Some? && r.planner.Some?;
    :- Demand(present, BadSource);
    var decision, planner := r.decision.value, r.planner.value;
    match decision.origin {
      case FromPlanner =>
        :- Demand(planner.decisionRequired, BadSource);
        :- Demand(planner.decisionQuestion == Some(decision.question) && planner.decisionRationale == Some(decision.rationale), BadSource);
      case FromAuditor =>
        :- Demand(r.auditor.Some?, BadSource);
        var auditor := r.auditor.value;
        :- Demand(planner.taskId == Some(auditor.taskId), BadSource);
        :- Demand(auditor.decisionRequired, BadSource);
        :- Demand(auditor.decisionQuestion == Some(decision.question) && auditor.decisionRationale == Some(decision.rationale), BadSource);
    }
    if requireAnswer && r.architect.Some? {
      :- Demand(r.architect.value.question == decision.question, BadSource);
    }
    return Pass;
  }

  /** `_validate_pending_context_matches_source`. */
  method ValidateContextMatchesSource(r: Results, q: PendingQuestion) returns (c: Check)
    ensures c.Pass? <==> QuestionMatchesSource(r, q)
  {
    if q.kind.BuilderGuidance? || q.kind.BuilderEscalation? {
      :- Demand(r.builder.Some? && q.context == AboutStatus(r.builder.value.status), BadSource);
      return Pass;
    }
    :- ValidateDecisionRelationships(r, true);
    if q.kind.ArchitectInput? {
      :- Demand(q.context == AboutQuestion(r.decision.value.question), BadSource);
      return Pass;
    }
    :- Demand(r.architect.Some? && r.architect.value.adr.Some?, BadSource);
    var adr := r.architect.value.adr.value;
    :- Demand(q.context == AboutAdr(adr.title, adr.decision), BadSource);
    return Pass;
  }

  /** `_validate_verification_for_phase`. */
  method ValidateVerificationForPhase(v: Option<VerificationResult>, configured: seq<string>, p: Phase) returns (c: Check)
    ensures c.Pass? <==> VerificationFits(v, configured, p)
  {
    if IsPreVerification(p) {
      return Demand(v.None?, BadPhase);
    }
    if !IsPostBuild(p) {
      return Pass;
    }
    if p.Verifying? {
      :- Demand(configured != [], BadPhase);
      return Demand(v.None?, BadPhase);
    }
    :- Demand((configured != []) == v.Some?, BadPhase);
    if v.Some? {
      :- Demand(CommandTexts(v.value.commands) == configured, BadPhase);
    }
    return Pass;
  }

  predicate AwaitingFacts(b: Body) {
    && VerificationFits(b.results.verification, b.options.verifyCommands, AwaitingInput)
    && FullTask(b.task) && PlannerReady(b.results) && AwaitingSourceOk(b.results, b.question)
  }

  /** The branch of `_validate_effective_phase_requirements` for awaiting_input. */
  method ValidateAwaitingInput(b: Body) returns (c: Check)
    ensures c.Pass? <==> AwaitingFacts(b)
  {
    var r := b.results;
    :- ValidateVerificationForPhase(r.verification, b.options.verifyCommands, AwaitingInput);
    :- Demand(FullTask(b.task), BadPhase);
    :- Demand(PlannerReady(r), BadPhase);
    :- Demand(b.question.Some?, BadPhase);
    match b.question.value.kind {
      case ArchitectInput => :- Demand(r.architect.Some?, BadPhase);
      case DecisionApproval => :- Demand(r.architect.Some? && r.architect.value.status.Decided?, BadPhase);
      case _ => :- Demand(r.builder.Some? && !r.builder.value.status.Complete?, BadPhase);
    }
    :- ValidateContextMatchesSource(r, b.question.value);
    return Pass;
  }

  /** The checks after the build. */
  method ValidateBuilt(b: Body, k: Checkpoints, p: Phase) returns (c: Check)
    requires IsPostBuild(p)
    ensures c.Pass? <==>
              && BuiltOk(b.results, b.lastTaskHead) && k.taskHead == b.lastTaskHead
              && (IsMergeOrCleanup(p) ==> b.intents.mergeTask == b.lastTaskHead)
              && VerificationFits(b.results.verification, b.options.verifyCommands, p)
  {
    var builder := b.results.builder;
    :- Demand(builder.Some? && builder.value.status.Complete?, BadPhase);
    var reported := builder.value.commit;
    :- Demand(reported.Some? && IsReportedCommit(reported.value), BadPhase);
    :- Demand(b.lastTaskHead.Some? && IsCanonicalCommit(b.lastTaskHead.value), BadPhase);
    :- Demand(k.taskHead.Some? && IsCanonicalCommit(k.taskHead.value), BadPhase);
    :- Demand(CommitIdsMatch(reported.value, b.lastTaskHead.value), BadPhase);
    :- Demand(k.taskHead == b.lastTaskHead, BadPhase);
    if IsMergeOrCleanup(p) {
      :- Demand(b.intents.mergeTask.Some? && IsCanonicalCommit(b.intents.mergeTask.value), BadPhase);
      :- Demand(b.intents.mergeTask == b.lastTaskHead, BadPhase);
    }
    :- ValidateVerificationForPhase(b.results.verification, b.options.verifyCommands, p);
    return Pass;
  }

  /** `_validate_effective_phase_requirements`. */
  method ValidateEffectivePhase(b: Body, k: Checkpoints, p: Phase) returns (c: Check)
    requires !p.OperationalFailure?
    ensures c.Pass? <==> PhaseRequirements(b, k, p)
  {
    var n := b.intents;
    if p.CreatingWorktree? {
      :- Demand(PresentNonEmpty(n.treePath) && PresentNonEmpty(n.treeBranch) && PresentNonEmpty(n.treeBase), BadPhase);
      :- Demand(NoTask(b.task) && k.taskHead.None? && k.taskStatus.None?, BadPhase);
      :- Demand(b.results.planner.Some? && PresentNonEmpty(b.results.planner.value.taskId), BadPhase);
    }
    if p.Merging? {
      :- Demand(n.mergePre.Some? && n.mergeTask.Some?, BadPhase);
      :- Demand(FullTask(b.task), BadPhase);
    }
    if p.CleanupWorktree? || p.CleanupBranch? {
      :- Demand(n.mergePre.Some? && n.mergeTask.Some? && n.mergeCommit.Some?, BadPhase);
      :- Demand(FullTask(b.task), BadPhase);
    }
    if p.RecordingDecision? {
      :- Demand(n.adrPath.Some? && n.adrHash.Some?, BadPhase);
    }
    if p.AwaitingInput? {
      c := ValidateAwaitingInput(b);
      return;
    }
    if IsPreVerification(p) {
      :- ValidateVerificationForPhase(b.results.verification, b.options.verifyCommands, p);
    }
    if p.CreatingWorktree? {
      return Demand(PlannerReady(b.results), BadPhase);
    }
    if IsTaskPhase(p) {
      :- Demand(FullTask(b.task), BadPhase);
      :- Demand(PlannerReady(b.results), BadPhase);
    }
    if p.Architecting? || p.RecordingDecision? {
      :- ValidateDecisionRelationships(b.results, p.RecordingDecision? || b.question.Some?);
    }
    if p.RecordingDecision? {
      :- Demand(b.results.architect.Some? && b.results.architect.value.status.Decided?, BadPhase);
    }
    if IsPostBuild(p) {
      :- ValidateBuilt(b, k, p);
    }
    if IsMergeOrCleanup(p) {
      :- Demand(b.results.auditor.Some? && b.results.auditor.value.disposition.Accept?, BadPhase);
    }
    if p.Done? {
      :- Demand(NoTask(b.task), BadPhase);
    }
    return Pass;
  }

  /** `_validate_pending_question_phase`. */
  method ValidateRetainedQuestion(d: Doc) returns (c: Check)
    requires ErrorOk(d.phase, d.lastError)
    ensures c.Pass? <==> RetainedQuestionOk(d)
  {
    var effective := EffectivePhase(d);
    if d.body.question.None? || effective.AwaitingInput? {
      return Pass;
    }
    var q := d.body.question.value;
    var allowed := if effective.Failed? then d.lastError.value.failedPhase else effective;
    :- Demand(q.answer.Some? && (allowed.Architecting? || allowed.Building?), BadRetained);
    :- Demand(if allowed.Architecting? then q.kind.ArchitectInput? else q.kind.BuilderGuidance?, BadRetained);
    :- ValidateContextMatchesSource(d.body.results, q);
    return Pass;
  }

  predicate InvariantsOk(d: Doc) {
    && ErrorOk(d.phase, d.lastError)
    && (d.body.results.decision.Some? ==> ValidDecision(d.body.results.decision.value))
    && PhaseRequirements(d.body, d.checkpoints, EffectivePhase(d))
    && RetainedQuestionOk(d)
  }

  /** `_validate_phase_invariants`. */
  method ValidatePhaseInvariants(d: Doc) returns (c: Check)
    ensures c.Pass? <==> InvariantsOk(d)
  {
    if d.lastError.Some? {
      :- ReadErrorRecord(d.lastError.value);
      :- Demand(d.phase.OperationalFailure? ==> d.lastError.value.retryable, ErrorForbidden);
      :- Demand(d.phase.Failed? ==> !d.lastError.value.retryable, ErrorForbidden);
    }
    if d.body.results.decision.Some? {
      var decision := d.body.results.decision.value;
      :- Demand(decision.question != "" && decision.rationale != "", BadDecision);
    }
    :- Demand(d.phase.OperationalFailure? || d.phase.Failed? ==> d.lastError.Some?, ErrorMissing);
    :- Demand(d.phase.RecordingDecision? ==> d.body.results.decision.Some?, BadDecision);
    :- ValidateEffectivePhase(d.body, d.checkpoints, EffectivePhase(d));
    :- ValidateRetainedQuestion(d);
    return Pass;
  }

  // -------------------------------------------------------------- the reader

  /** All validators in the reader's order. */
  method Validate(d: Doc) returns (c: Check)
    ensures c.Pass? <==> Loads(d)
  {
    var b := d.body;
    :- ReadOptions(b.options);
    :- ValidateScalarTypes(d);
    :- ValidateNestedResults(b.results);
    :- ValidatePendingQuestion(b.question);
    :- ValidateTaskIdentity(b.task, d.checkpoints, WorktreeIsAbsent(d));
    :- ValidatePhaseInvariants(d);
    return Pass;
  }

  /** `from_dict`: the state, or the first complaint. */
  method FromDict(d: Doc) returns (check: Check, state: RunState?)
    ensures check.Pass? <==> Loads(d)
    ensures check.Pass? <==> state != null
    ensures state != null ==> fresh(state) && state.ToDict() == d
  {
    check := Validate(d);
    if check.Fail? {
      return check, null;
    }
    state := new RunState(d);
  }
}
