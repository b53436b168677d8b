/** `run()` makes finitely many steps: a lexicographic measure that every iteration lowers. */
module Termination {
  import opened Text
  import opened Contracts
  import opened Document
  import opened Repository
  import opened Transitions

  // --------------------------------------------------------------- measure

  /** Tasks, replans, stage and revisions left, and the rank of the phase, most significant first. */
  datatype Key = Key(tasks: int, replans: int, stage: nat, revisions: int, rank: nat)

  predicate Below(a: Key, b: Key) {
    || a.tasks < b.tasks
    || (a.tasks == b.tasks && (a.replans < b.replans
    || (a.replans == b.replans && (a.stage < b.stage
    || (a.stage == b.stage && (a.revisions < b.revisions
    || (a.revisions == b.revisions && a.rank < b.rank)))))))
  }

  predicate AuditorsDecisionOpen(b: Body) {
    b.results.decision.Some? && b.results.decision.value.origin.FromAuditor?
  }

  /** 1 until a plan for the task is adopted, 0 from then on. */
  function Stage(b: Body, p: Phase): nat {
    if p.Planning? || p.CreatingWorktree? || AuditorsDecisionOpen(b) then 1 else 0
  }

  function PhaseRank(p: Phase): nat {
    match p
    case Architecting => 10
    case RecordingDecision => 9
    case Planning => 8
    case CreatingWorktree => 7
    case Building => 6
    case Verifying => 5
    case Auditing => 4
    case Merging => 3
    case CleanupWorktree => 2
    case CleanupBranch => 1
    case _ => 0
  }

  function KeyOf(b: Body, p: Phase): Key {
    Key(b.options.maxAcceptedTasks - b.counters.accepted, b.options.maxReplans - b.counters.replans, Stage(b, p),
        b.options.maxRevisions - b.counters.revisions, PhaseRank(p))
  }

  // ---------------------------------------------------- what keeps it above 0

  predicate AsksArchitect(q: Option<PendingQuestion>) {
    q.Some? && (q.value.kind.ArchitectInput? || q.value.kind.DecisionApproval?)
  }

  /** Limits respected, and an auditor's decision open only where it is being worked on. */
  predicate Bounded(b: Body, p: Phase) {
    && IsRetryTarget(p)
    && b.counters.accepted <= b.options.maxAcceptedTasks
    && (b.task.path.Some? || b.intents.treePath.Some? || p.CreatingWorktree? ==>
          b.counters.accepted < b.options.maxAcceptedTasks)
    && (b.task.path.Some? ==> b.intents.treePath.None?)
    && b.counters.revisions <= b.options.maxRevisions
    && b.counters.replans <= b.options.maxReplans
    && (AuditorsDecisionOpen(b) ==>
          p.Architecting? || p.RecordingDecision? || (p.AwaitingInput? && AsksArchitect(b.question)))
  }

  /** Where a dispatch leads: lower, or to a failure at the same height. Only an answer from the
      operator may lead up. */
  predicate Descends(b: Body, p: Phase, x: Dispatched, answered: bool) {
    && x.body.options == b.options
    && match x.raise
       case NoRaise =>
         if x.phase.Done? then p.Planning? && Bounded(x.body, p) && KeyOf(x.body, p) == KeyOf(b, p)
         else Bounded(x.body, x.phase) && (answered || Below(KeyOf(x.body, x.phase), KeyOf(b, p)))
       case InputRequired => Bounded(x.body, x.phase) && x.phase.AwaitingInput? && Below(KeyOf(x.body, x.phase), KeyOf(b, p))
       case Operational(f) =>
         && x.phase == p && RetryPhaseFor(f.kind, p) == p
         && Bounded(x.body, p) && (answered || KeyOf(x.body, p) == KeyOf(b, p))
       case _ => true
  }

  lemma PlanningDescends(b: Body, g: Git, i: StepInput)
    requires HasMain(g) && Bounded(b, Planning)
    ensures Descends(b, Planning, DoPlanning(b, g, i), false)
  {
  }

  lemma CreatingDescends(b: Body, g: Git, i: StepInput)
    requires HasMain(g) && Bounded(b, CreatingWorktree)
    ensures Descends(b, CreatingWorktree, DoCreatingWorktree(b, g, i), false)
  {
  }

  lemma PrepareDescends(b: Body, p: Phase, g: Git, i: StepInput)
    requires Bounded(b, p) && (p.Architecting? || (p.AwaitingInput? && AsksArchitect(b.question)))
    ensures Descends(b, p, PrepareRecordDecision(b, p, g, i), p.AwaitingInput?)
  {
  }

  lemma FollowArchitectDescends(b: Body, g: Git, r: ArchitectResult, i: StepInput)
    requires Bounded(b, Architecting) && b.results.decision.Some?
    ensures Descends(b, Architecting, FollowArchitect(b, g, r, i), false)
  {
    PrepareDescends(b, Architecting, g, i);
  }

  lemma ArchitectingDescends(b: Body, g: Git, i: StepInput)
    requires HasMain(g) && Bounded(b, Architecting)
    ensures Descends(b, Architecting, DoArchitecting(b, g, i), false)
  {
    if b.results.decision.Some? && i.architect.Replied? && i.architect.value.question == b.results.decision.value.question {
      var b1 := b.(results := b.results.(architect := Some(i.architect.value)));
      assert KeyOf(b1, Architecting) == KeyOf(b, Architecting);
      FollowArchitectDescends(b1, WorktreeEdit(b.task, g, i.edit), i.architect.value, i);
    }
  }

  lemma RecordingDescends(b: Body, g: Git, i: StepInput)
    requires HasMain(g) && Bounded(b, RecordingDecision)
    ensures Descends(b, RecordingDecision, DoRecordingDecision(b, g, i), false)
  {
  }

  lemma FinishBuildDescends(b: Body, g: Git, r: BuilderResult, i: StepInput)
    requires Bounded(b, Building) && HasWorktree(b.task)
    ensures Descends(b, Building, FinishBuild(b, g, r, i), false)
  {
  }

  lemma AskGuidanceDescends(b: Body, g: Git, r: BuilderResult)
    requires Bounded(b, Building)
    ensures Descends(b, Building, AskGuidance(b, g, r), false)
  {
  }

  lemma BuildingDescends(b: Body, g: Git, i: StepInput)
    requires HasMain(g) && Bounded(b, Building)
    ensures Descends(b, Building, DoBuilding(b, g, i), false)
  {
    if i.builder.Replied? && HasWorktree(b.task) {
      var g1, r := WorktreeEdit(b.task, g, i.edit), i.builder.value;
      var b1 := b.(results := b.results.(builder := Some(r)));
      assert KeyOf(b1, Building) == KeyOf(b, Building);
      FinishBuildDescends(b1, g1, r, i);
      AskGuidanceDescends(b1, g1, r);
    }
  }

  lemma VerifyingDescends(b: Body, g: Git, i: StepInput)
    requires HasMain(g) && Bounded(b, Verifying) && |i.runs| == |b.options.verifyCommands|
    ensures Descends(b, Verifying, DoVerifying(b, g, i), false)
  {
  }

  lemma VerdictDescends(b: Body, g: Git, r: AuditorResult, i: StepInput)
    requires HasMain(g) && Bounded(b, Auditing) && HasWorktree(b.task)
    ensures Descends(b, Auditing, AcceptTask(b, g, i), false)
    ensures Descends(b, Auditing, ReviseTask(b, g), false)
    ensures Descends(b, Auditing, ReplanTask(b, g, r), false)
  {
  }

  /** Auditing either acts on a verdict or fails where it is. */
  lemma AuditingActs(b: Body, g: Git, i: StepInput)
    requires HasMain(g)
    ensures var x := DoAuditing(b, g, i);
      || (x.body == b && x.phase.Auditing? && !x.raise.NoRaise? && !x.raise.InputRequired?
          && (x.raise.Operational? ==> RetryPhaseFor(x.raise.fault.kind, Auditing) == Auditing))
      || (HasWorktree(b.task) && i.auditor.Replied?
          && var v := b.(results := b.results.(auditor := Some(i.auditor.value)));
          match i.auditor.value.disposition
          case Accept => x == AcceptTask(v, x.git, i)
          case Revise => x == ReviseTask(v, x.git)
          case Replan => x == ReplanTask(v, x.git, i.auditor.value))
  {
  }

  lemma AuditingDescends(b: Body, g: Git, i: StepInput)
    requires HasMain(g) && Bounded(b, Auditing)
    ensures Descends(b, Auditing, DoAuditing(b, g, i), false)
  {
    AuditingActs(b, g, i);
    if i.auditor.Replied? && HasWorktree(b.task) {
      var b1 := b.(results := b.results.(auditor := Some(i.auditor.value)));
      assert KeyOf(b1, Auditing) == KeyOf(b, Auditing);
      VerdictDescends(b1, DoAuditing(b, g, i).git, i.auditor.value, i);
    }
  }

  lemma MergingDescends(b: Body, g: Git, i: StepInput)
    requires HasMain(g) && Bounded(b, Merging)
    ensures Descends(b, Merging, DoMerging(b, g, i), false)
  {
  }

  lemma CleanupWorktreeDescends(b: Body, g: Git, i: StepInput)
    requires HasMain(g) && Bounded(b, CleanupWorktree)
    ensures Descends(b, CleanupWorktree, DoCleanupWorktree(b, g, i), false)
  {
  }

  lemma CleanupBranchDescends(b: Body, g: Git, i: StepInput)
    requires HasMain(g) && Bounded(b, CleanupBranch)
    ensures Descends(b, CleanupBranch, DoCleanupBranch(b, g, i), false)
  {
  }

  lemma OperatorReplanDescends(b: Body, g: Git)
    requires Bounded(b, AwaitingInput) && !AsksArchitect(b.question)
    ensures Descends(b, AwaitingInput, OperatorReplan(b, g), true)
  {
  }

  lemma ResolvingDescends(b: Body, g: Git, answer: string, i: StepInput)
    requires HasMain(g) && Bounded(b, AwaitingInput)
    ensures Descends(b, AwaitingInput, ResolveInput(b, g, answer, i), true)
  {
    if b.question.Some? {
      match b.question.value.kind
      case DecisionApproval =>
        PrepareDescends(b.(question := Some(b.question.value.(answer := Some(answer)))), AwaitingInput, g, i);
      case ArchitectInput =>
      case BuilderGuidance => OperatorReplanDescends(b, g);
      case BuilderEscalation => OperatorReplanDescends(b, g);
    }
  }

  lemma DispatchDescends(d: Doc, g: Git, i: StepInput)
    requires HasMain(g) && Bounded(d.body, d.phase) && |i.runs| == |d.body.options.verifyCommands|
    requires d.phase.AwaitingInput? ==> i.answer.Some?
    ensures Descends(d.body, d.phase, Dispatch(d, g, i), d.phase.AwaitingInput?)
  {
    match d.phase
    case Planning => PlanningDescends(d.body, g, i);
    case Architecting => ArchitectingDescends(d.body, g, i);
    case Building => BuildingDescends(d.body, g, i);
    case Verifying => VerifyingDescends(d.body, g, i);
    case Auditing => AuditingDescends(d.body, g, i);
    case AwaitingInput => ResolvingDescends(d.body, g, i.answer.value, i);
    case CreatingWorktree => CreatingDescends(d.body, g, i);
    case RecordingDecision => RecordingDescends(d.body, g, i);
    case Merging => MergingDescends(d.body, g, i);
    case CleanupWorktree => CleanupWorktreeDescends(d.body, g, i);
    case CleanupBranch => CleanupBranchDescends(d.body, g, i);
  }

  // -------------------------------------------------------------- iterations

  /** The run in memory at the top of the loop. */
  predicate Running(d: Doc) {
    && Bounded(d.body, EffectivePhase(d))
    && 0 <= d.operationalRetries <= d.body.options.maxOperationalRetries
  }

  /** The whole measure: the key, then the retries left, and one more step to leave a failure. */
  function RetriesLeft(d: Doc): int {
    d.body.options.maxOperationalRetries - d.operationalRetries
  }

  function FailureFlag(d: Doc): nat {
    if d.phase.OperationalFailure? then 1 else 0
  }

  function CurrentKey(d: Doc): Key {
    KeyOf(d.body, EffectivePhase(d))
  }

  /** The one step that may be repeated for ever: saving the end of the run. */
  predicate FinishIsLost(d: Doc, g: Git, i: StepInput)
    requires HasMain(g) && |i.runs| == |d.body.options.verifyCommands|
  {
    && d.phase.Planning? && Dispatch(d, g, i).raise.NoRaise? && Dispatch(d, g, i).phase.Done?
    && Advance(d, g, i).result.Returned? && Advance(d, g, i).result.status.OperationalFailureStatus?
  }

  predicate LowerThan(d: Doc, e: Doc) {
    || Below(CurrentKey(d), CurrentKey(e))
    || (CurrentKey(d) == CurrentKey(e) && (RetriesLeft(d) < RetriesLeft(e)
    || (RetriesLeft(d) == RetriesLeft(e) && FailureFlag(d) < FailureFlag(e))))
  }

  /** The operator was asked and did not answer. */
  predicate Unanswered(d: Doc, i: StepInput) {
    d.phase.AwaitingInput? && i.answer.None?
  }

  /** What a returned step holds in memory: the dispatched body, in a phase it may resume in,
      with the retry count reset by success. */
  predicate Holds(s: Step, d: Doc, x: Dispatched, i: StepInput) {
    s.result.Returned? ==>
      && s.mem.body == x.body
      && (s.result.status.Advanced? || s.result.status.InputRequiredStatus? ==>
            && (x.raise.NoRaise? || x.raise.InputRequired?)
            && s.mem.phase == x.phase && (x.raise.NoRaise? ==> !Unanswered(d, i))
            && s.mem.operationalRetries == (if d.phase.OperationalFailure? then d.operationalRetries else 0))
      && (s.result.status.OperationalFailureStatus? ==>
            && s.mem.phase.OperationalFailure?
            && (x.raise.NoRaise? || x.raise.Operational?)
            && EffectivePhase(s.mem) == (if x.raise.Operational? then RetryPhaseFor(x.raise.fault.kind, d.phase)
                                         else if IsTerminal(x.phase) then d.phase else x.phase)
            && (s.mem.operationalRetries == d.operationalRetries || s.mem.operationalRetries == 0)
            && (d.phase.OperationalFailure? || x.raise.Operational? || Unanswered(d, i) ==>
                  s.mem.operationalRetries == d.operationalRetries))
  }

  lemma ConclusionHolds(d: Doc, x: Dispatched, i: StepInput)
    requires HasMain(x.git)
    ensures Holds(Concluded(d, x, i), d, x, i) && Concluded(d, x, i).git == x.git
  {
  }

  lemma CountedRetryKeeps(d: Doc, g: Git, choice: SaveChoice)
    requires HasMain(g) && CountRetry(d, g, choice).GoesOn?
    ensures var e := CountRetry(d, g, choice).doc;
      && e.body == d.body && e.phase == d.phase && EffectivePhase(e) == EffectivePhase(d)
      && e.operationalRetries == d.operationalRetries + 1
  {
  }

  /** The run goes on lower down, or it is over. */
  predicate Progress(e: Doc, d: Doc, answered: bool) {
    IsTerminal(e.phase) || (Running(e) && (answered || LowerThan(e, d)))
  }

  lemma SuccessProgresses(d: Doc, x: Dispatched, e: Doc, answered: bool)
    requires Running(d) && !d.phase.OperationalFailure? && Descends(d.body, d.phase, x, answered)
    requires x.raise.NoRaise? || x.raise.InputRequired?
    requires e.body == x.body && e.phase == x.phase && e.operationalRetries == 0
    ensures Progress(e, d, answered)
  {
  }

  /** A failure that is retried lowers the retries left, and the key too if the step itself was
      done; only the end of the run is done at the height it started from. */
  lemma FailureProgresses(d: Doc, x: Dispatched, e: Doc, answered: bool)
    requires Running(d) && !d.phase.OperationalFailure? && Descends(d.body, d.phase, x, answered)
    requires x.raise.Operational? || x.raise.NoRaise?
    requires e.body == x.body && e.phase.OperationalFailure?
    requires EffectivePhase(e) == if x.raise.Operational? || x.phase.Done? then d.phase else x.phase
    requires 0 <= e.operationalRetries <= e.body.options.maxOperationalRetries
    requires e.operationalRetries == d.operationalRetries + 1 || (e.operationalRetries == 1 && !x.raise.Operational?)
    ensures if x.raise.NoRaise? && x.phase.Done? then Running(e) && CurrentKey(e) == CurrentKey(d)
            else Progress(e, d, answered)
  {
  }

  /** A retried phase, or an unanswered question, is where it was, with one try or one flag less. */
  lemma RetryProgresses(d: Doc, e: Doc)
    requires Running(d) && e.body == d.body && EffectivePhase(e) == EffectivePhase(d)
    requires e.operationalRetries <= e.body.options.maxOperationalRetries
    requires if e.phase.OperationalFailure? then e.operationalRetries == d.operationalRetries + 1
             else d.phase.OperationalFailure? && e.operationalRetries == d.operationalRetries
    ensures Progress(e, d, false)
  {
  }

  lemma SameBodyIterationDescends(d: Doc, x: Dispatched, i: StepInput)
    requires HasMain(x.git) && Running(d) && x.raise.NoRaise? && x.body == d.body && x.phase == EffectivePhase(d)
    requires d.phase.OperationalFailure? || Unanswered(d, i)
    requires Continuation(d, x, i).GoesOn?
    ensures Progress(Continuation(d, x, i).doc, d, false)
  {
    var s := Concluded(d, x, i);
    ConclusionHolds(d, x, i);
    if s.result.status.OperationalFailureStatus? {
      CountedRetryKeeps(s.mem, s.git, i.retrySave);
    }
    RetryProgresses(d, Continuation(d, x, i).doc);
  }

  /** What an iteration makes of a dispatch. */
  lemma StepDescends(d: Doc, x: Dispatched, i: StepInput, answered: bool)
    requires HasMain(x.git) && Running(d) && !d.phase.OperationalFailure? && Descends(d.body, d.phase, x, answered)
    requires Continuation(d, x, i).GoesOn?
    ensures var e := Continuation(d, x, i).doc;
      if x.raise.NoRaise? && x.phase.Done? && Concluded(d, x, i).result.status.OperationalFailureStatus?
      then d.phase.Planning? && Running(e) && CurrentKey(e) == CurrentKey(d)
      else Progress(e, d, answered)
  {
    var s := Concluded(d, x, i);
    ConclusionHolds(d, x, i);
    if s.result.status.OperationalFailureStatus? {
      CountedRetryKeeps(s.mem, s.git, i.retrySave);
      FailureProgresses(d, x, Continuation(d, x, i).doc, answered);
    } else {
      SuccessProgresses(d, x, Continuation(d, x, i).doc, answered);
    }
  }

  /** Every iteration that goes on lowers the measure, unless an answer was given or the end of
      the run could not be saved. */
  lemma IterationDescends(d: Doc, g: Git, i: StepInput)
    requires HasMain(g) && Running(d) && |i.runs| == |d.body.options.verifyCommands|
    requires Iterate(d, g, i).GoesOn?
    ensures var e := Iterate(d, g, i).doc;
      if FinishIsLost(d, g, i) then Running(e) && CurrentKey(e) == CurrentKey(d)
      else Progress(e, d, d.phase.AwaitingInput? && i.answer.Some?)
  {
    if d.phase.OperationalFailure? || Unanswered(d, i) {
      SameBodyIterationDescends(d, Dispatch(d, g, i), i);
    } else {
      DispatchDescends(d, g, i);
      StepDescends(d, Dispatch(d, g, i), i, d.phase.AwaitingInput?);
    }
  }

  /** The exception is real: if every save of the end of the run fails while every other save
      works, the retry count is reset each time and the run comes back to the same failure for ever. */
  lemma LostFinishRepeats(d: Doc, g: Git, i: StepInput, j: StepInput)
    requires HasMain(g) && |i.runs| == |j.runs| == |d.body.options.verifyCommands|
    requires d.phase.Planning? && d.body.counters.accepted >= d.body.options.maxAcceptedTasks
    requires d.body.task.path.None? && d.lastError.None? && d.body.options.maxOperationalRetries >= 1
    requires i.save.CheckpointFails? && i.failureSave.SaveWorks? && i.retrySave.SaveWorks? && j.save.SaveWorks?
    ensures FinishIsLost(d, g, i) && Iterate(d, g, i).GoesOn?
    ensures var failed := Iterate(d, g, i).doc;
      && Iterate(failed, g, j).GoesOn?
      && var retried := Iterate(failed, g, j).doc;
      && retried.phase.Planning? && FinishIsLost(retried, g, i)
      && Iterate(retried, g, i) == GoesOn(failed, g)
  {
    var failed := LostFinish(d, g, i);
    var retried := failed.(phase := Planning, lastError := None);
    assert Iterate(failed, g, j) == GoesOn(retried, g) by {
      assert Dispatch(failed, g, j) == Dispatched(d.body, Planning, g, NoRaise);
    }
    LostFinishIsFailure(retried, g, i);
    LostFinishIsFailure(d, g, i);
  }

  /** The document after a lost finish and its counted retry. */
  function LostFinish(d: Doc, g: Git, i: StepInput): Doc
    requires HasMain(g) && i.save.CheckpointFails?
  {
    Doc(d.body, OperationalFailure, Some(FailureRecord(Fault(GitKind, Reported(i.save.message)), Planning)), 1,
        Checkpoints(MainHead(g), g.mainStatus, None, None))
  }

  lemma LostFinishIsFailure(d: Doc, g: Git, i: StepInput)
    requires HasMain(g) && |i.runs| == |d.body.options.verifyCommands|
    requires d.phase.Planning? && d.body.counters.accepted >= d.body.options.maxAcceptedTasks
    requires d.body.task.path.None? && d.lastError.None? && d.body.options.maxOperationalRetries >= 1
    requires i.save.CheckpointFails? && i.failureSave.SaveWorks? && i.retrySave.SaveWorks?
    ensures FinishIsLost(d, g, i) && Iterate(d, g, i) == GoesOn(LostFinish(d, g, i), g)
  {
    assert Dispatch(d, g, i) == Dispatched(d.body, Done, g, NoRaise);
  }
}
