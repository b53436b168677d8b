/** Writer and reader agree: what one `advance()` call persists, the reader accepts. */
module Closure {
  import opened Text
  import opened Document
  import opened Repository
  import opened Transitions
  import opened Invariant
  import opened PhaseSteps
  import opened RepositoryFacts

  /** Exceptions from outside carry a message. */
  predicate NonEmptyMessages(i: StepInput) {
    && (i.planner.AgentFailed? ==> i.planner.message != "")
    && (i.architect.AgentFailed? ==> i.architect.message != "")
    && (i.builder.AgentFailed? ==> i.builder.message != "")
    && (i.auditor.AgentFailed? ==> i.auditor.message != "")
    && NullOrNonEmpty(i.gitBefore) && NullOrNonEmpty(i.gitAfter)
    && NullOrNonEmpty(i.provisionFault) && NullOrNonEmpty(i.adrFault)
    && (i.save.CheckpointFails? ==> i.save.message != "")
  }

  lemma DispatchLands(d: Doc, g: Git, i: StepInput)
    requires AtRest(d, g) && !IsTerminal(d.phase) && InputFits(d.body, g, i) && PhaseGuard(d, g, i)
    ensures !d.phase.OperationalFailure? ==> Lands(Dispatch(d, g, i), d.phase, d.body)
  {
    match d.phase
    case Planning => PlanningLands(d.body, g, i);
    case Architecting => ArchitectingLands(d.body, g, i);
    case Building => BuildingLands(d.body, g, i);
    case Verifying => VerifyingLands(d.body, g, i);
    case Auditing => AuditingLands(d.body, g, i);
    case AwaitingInput => if i.answer.Some? { ResolveLands(d.body, g, i.answer.value, i); }
    case CreatingWorktree => CreatingLands(d.body, g, i);
    case RecordingDecision => RecordingLands(d.body, g, i);
    case Merging => MergingLands(d.body, g, i);
    case CleanupWorktree => CleanupWorktreeLands(d.body, g, i);
    case CleanupBranch => CleanupBranchLands(d.body, g, i);
    case OperationalFailure =>
  }

  // ------------------------------------------------------------- the saves

  /** What a step leaves when it wrote the document it holds in memory. */
  predicate RestsOn(s: Step) {
    s.disk.Some? ==> s.disk == Some(s.mem) && AtRest(s.mem, s.git) && s.result.Returned?
  }

  lemma FailureIsSaveable(e: Doc, g: Git, f: Fault, failedPhase: Phase)
    requires Saveable(e, g, failedPhase) && Recordable(f, failedPhase)
    ensures Saveable(WithFailure(e, g, f, failedPhase), g, failedPhase)
    ensures EffectivePhase(WithFailure(e, g, f, failedPhase)) == failedPhase
  {
  }

  lemma FailureRests(e: Doc, g: Git, f: Fault, failedPhase: Phase, before: Phase, choice: SaveChoice)
    requires Saveable(e, g, failedPhase) && Recordable(f, failedPhase) && SaysSomething(f.message)
    ensures RestsOn(FailOperationally(e, g, f, failedPhase, before, choice))
  {
    var d1 := WithFailure(e, g, f, failedPhase);
    FailureIsSaveable(e, g, f, failedPhase);
    assert ErrorOk(OperationalFailure, d1.lastError);
    if Checkpoint(d1, g).Some? {
      SavedIsAtRest(d1, g, failedPhase);
    }
  }

  lemma TerminalRecordIsValid(reason: Reason, before: Phase)
    ensures ErrorOk(Failed, Some(TerminalRecord(reason, before)))
  {
  }

  lemma TerminalRests(e: Doc, g: Git, reason: Reason, before: Phase, i: StepInput)
    requires WellFormed(g) && RetriesOk(e) && FailureSaveable(e.body, before)
    ensures RestsOn(FailTerminally(e, g, reason, before, i))
  {
    TerminalRecordIsValid(reason, before);
    var d1 := e.(lastError := Some(TerminalRecord(reason, before)), phase := Failed);
    match Save(d1, g, i.failureSave)
    case SavedAs(d2) => FailedIsAtRest(d1, g);
    case SaveFails(_) =>
  }

  lemma SaveRests(d: Doc, g: Git, target: Phase)
    requires d.phase.Done? || (IsRetryTarget(d.phase) && target == d.phase)
    requires Saveable(d, g, target) && d.lastError.None? && (d.phase.Done? ==> DoneSaveable(d.body))
    requires Checkpoint(d, g).Some?
    ensures AtRest(Checkpoint(d, g).value, g)
  {
    if d.phase.Done? {
      DoneIsAtRest(d, g);
    } else {
      SavedIsAtRest(d, g, target);
    }
  }

  lemma ResettingKeepsSaveable(d: Doc, g: Git, before: Phase, target: Phase)
    requires Saveable(d, g, target)
    ensures Saveable(ResetRetries(d, before), g, target)
  {
  }

  lemma AttemptedSaveRests(d: Doc, g: Git, target: Phase, before: Phase, status: Status, i: StepInput)
    requires d.phase.Done? || (IsRetryTarget(d.phase) && target == d.phase)
    requires Saveable(d, g, target) && d.lastError.None? && (d.phase.Done? ==> DoneSaveable(d.body))
    requires i.save.CheckpointFails? ==> i.save.message != ""
    ensures RestsOn(SavedOrFailed(d, g, target, before, status, i))
  {
    match Save(d, g, i.save)
    case SavedAs(_) => SaveRests(d, g, target);
    case SaveFails(Some(f)) => FailureRests(d, g, f, target, before, i.failureSave);
    case SaveFails(None) =>
  }

  lemma TransitionRests(e: Doc, g: Git, before: Phase, status: Status, i: StepInput)
    requires e.phase.Done? || IsRetryTarget(e.phase)
    requires Saveable(e, g, if e.phase.Done? then before else e.phase) && e.lastError.None?
    requires e.phase.Done? ==> DoneSaveable(e.body)
    requires i.save.CheckpointFails? ==> i.save.message != ""
    ensures RestsOn(SaveAfterTransition(e, g, before, status, i))
  {
    var target := if e.phase.Done? then before else e.phase;
    ResettingKeepsSaveable(e, g, before, target);
    AttemptedSaveRests(if status.InputUnavailable? then e else ResetRetries(e, before), g, target, before, status, i);
  }

  lemma SignalRests(e: Doc, g: Git, before: Phase, i: StepInput)
    requires e.phase.AwaitingInput? && Saveable(e, g, AwaitingInput) && e.lastError.None?
    ensures RestsOn(SaveAfterSignal(e, g, before, i))
  {
    var d1 := ResetRetries(e, before);
    assert Saveable(d1, g, AwaitingInput);
    if Checkpoint(d1, g).Some? {
      SavedIsAtRest(d1, g, AwaitingInput);
    }
  }

  // ------------------------------------------------------------ one advance

  lemma RoleFaultSaysSomething(d: Doc, g: Git, i: StepInput)
    requires HasMain(g) && |i.runs| == |d.body.options.verifyCommands| && NonEmptyMessages(i)
    requires d.phase.Planning? || d.phase.Architecting? || d.phase.Building? || d.phase.Auditing? || d.phase.AwaitingInput?
    ensures Dispatch(d, g, i).raise.Operational? ==> SaysSomething(Dispatch(d, g, i).raise.fault.message)
  {
  }

  lemma FaultSaysSomething(d: Doc, g: Git, i: StepInput)
    requires HasMain(g) && |i.runs| == |d.body.options.verifyCommands| && !IsTerminal(d.phase) && NonEmptyMessages(i)
    ensures Dispatch(d, g, i).raise.Operational? ==> SaysSomething(Dispatch(d, g, i).raise.fault.message)
  {
    if d.phase.Planning? || d.phase.Architecting? || d.phase.Building? || d.phase.Auditing? || d.phase.AwaitingInput? {
      RoleFaultSaysSomething(d, g, i);
    }
  }

  lemma SaveableByBody(d: Doc, e: Doc, g: Git, p: Phase)
    requires Saveable(d, g, p) && e.body == d.body && e.checkpoints == d.checkpoints
    requires e.operationalRetries == d.operationalRetries
    ensures Saveable(e, g, p)
  {
  }

  lemma RetryRests(d: Doc, g: Git, i: StepInput)
    requires AtRest(d, g) && d.phase.OperationalFailure? && NonEmptyMessages(i)
    ensures RestsOn(Concluded(d, DoRetry(d, g), i))
  {
    var x := DoRetry(d, g);
    var e := InMemory(d, x);
    AtRestIsSaveable(d, g);
    assert x.phase == EffectivePhase(d) && x.raise.NoRaise?;
    SaveableByBody(d, e, g, x.phase);
    TransitionRests(e, g, d.phase, SuccessStatus(d.phase, x.phase, i), i);
  }

  lemma LandingIsSaveable(d: Doc, g: Git, x: Dispatched)
    requires AtRest(d, g) && !IsTerminal(d.phase) && Lands(x, d.phase, d.body)
    requires x.raise.NoRaise? || x.raise.InputRequired? || x.raise.Operational?
    ensures Saveable(InMemory(d, x), x.git, if x.phase.Done? then d.phase else x.phase)
  {
  }

  /** Every document an `advance()` call writes is again at rest, given the guard of its phase. */
  lemma AdvanceRests(d: Doc, g: Git, i: StepInput)
    requires AtRest(d, g) && InputFits(d.body, g, i) && NonEmptyMessages(i) && PhaseGuard(d, g, i)
    ensures RestsOn(Advance(d, g, i))
  {
    if IsTerminal(d.phase) {
    } else if d.phase.OperationalFailure? {
      RetryRests(d, g, i);
    } else {
      var x := Dispatch(d, g, i);
      var e := InMemory(d, x);
      DispatchLands(d, g, i);
      FaultSaysSomething(d, g, i);
      if !x.raise.LoopFailure? && !x.raise.Escapes? {
        LandingIsSaveable(d, g, x);
      }
      match x.raise
      case NoRaise => TransitionRests(e, x.git, d.phase, SuccessStatus(d.phase, x.phase, i), i);
      case InputRequired => SignalRests(e, x.git, d.phase, i);
      case Operational(f) => FailureRests(e, x.git, f, d.phase, d.phase, i.failureSave);
      case LoopFailure(reason) => TerminalRests(e, x.git, reason, d.phase, i);
      case Escapes =>
    }
  }

  lemma ConclusionIsHonest(d: Doc, x: Dispatched, i: StepInput)
    requires HasMain(x.git)
    ensures Concluded(d, x, i).git == x.git
    ensures Concluded(d, x, i).disk.Some? <==> Concluded(d, x, i).result.Returned?
  {
  }

  /** Counting a retry keeps a failure at rest. */
  lemma CountedRetryRests(d: Doc, g: Git, save: SaveChoice)
    requires AtRest(d, g) && MayRetry(d)
    ensures var r := CountRetry(d, g, save);
      r.GoesOn? ==> AtRest(r.doc, g) && r.doc.body == d.body && EffectivePhase(r.doc) == EffectivePhase(d)
  {
    var d1 := d.(operationalRetries := d.operationalRetries + 1);
    AtRestIsSaveable(d, g);
    assert Saveable(d1, g, EffectivePhase(d));
    if Checkpoint(d1, g).Some? {
      SavedIsAtRest(d1, g, EffectivePhase(d));
    }
  }

  // -------------------------------------------------- the guards are needed

  /** The phase a written document resumes in. */
  function Resumes(d: Doc, x: Dispatched): set<Phase>
  {
    match x.raise
    case NoRaise => {x.phase, if IsTerminal(x.phase) then d.phase else x.phase}
    case InputRequired => {x.phase}
    case Operational(f) => {RetryPhaseFor(f.kind, d.phase)}
    case LoopFailure(_) => {Failed}
    case Escapes => {}
  }

  /** A written document has body `b`, the live task HEAD, and one of the phases `ps` to resume in. */
  predicate Wrote(s: Step, b: Body, g: Git, ps: set<Phase>) {
    s.disk.Some? ==>
      && s.disk.value.body == b
      && EffectivePhase(s.disk.value) in ps
      && (!EffectivePhase(s.disk.value).CleanupBranch? && b.task.path.Some? ==>
            s.disk.value.checkpoints.taskHead == HeadAt(g, b.task.path.value))
  }

  lemma FailureWrites(e: Doc, g: Git, f: Fault, failedPhase: Phase, before: Phase, choice: SaveChoice)
    requires HasMain(g)
    ensures Wrote(FailOperationally(e, g, f, failedPhase, before, choice), e.body, g, {RetryPhaseFor(f.kind, failedPhase)})
  {
  }

  lemma AttemptedSaveWrites(d: Doc, g: Git, target: Phase, before: Phase, status: Status, i: StepInput)
    requires HasMain(g) && !d.phase.OperationalFailure?
    ensures Wrote(SavedOrFailed(d, g, target, before, status, i), d.body, g, {d.phase, target})
  {
    match Save(d, g, i.save)
    case SaveFails(Some(f)) => FailureWrites(d, g, f, target, before, i.failureSave);
    case _ =>
  }

  lemma TransitionWrites(e: Doc, g: Git, before: Phase, status: Status, i: StepInput)
    requires HasMain(g) && !e.phase.OperationalFailure?
    ensures Wrote(SaveAfterTransition(e, g, before, status, i), e.body, g,
                  {e.phase, if IsTerminal(e.phase) then before else e.phase})
  {
    AttemptedSaveWrites(if status.InputUnavailable? then e else ResetRetries(e, before), g,
                        if IsTerminal(e.phase) then before else e.phase, before, status, i);
  }

  lemma ConclusionWrites(d: Doc, x: Dispatched, i: StepInput)
    requires HasMain(x.git) && !x.phase.OperationalFailure?
    ensures Wrote(Concluded(d, x, i), x.body, x.git, Resumes(d, x))
  {
    var e := InMemory(d, x);
    match x.raise
    case NoRaise => TransitionWrites(e, x.git, d.phase, SuccessStatus(d.phase, x.phase, i), i);
    case InputRequired =>
    case Operational(f) => FailureWrites(e, x.git, f, d.phase, d.phase, i.failureSave);
    case LoopFailure(_) =>
    case Escapes =>
  }

  lemma PlanningRejects(d: Doc, g: Git, i: StepInput)
    requires AtRest(d, g) && d.phase.Planning? && InputFits(d.body, g, i) && !PlanningGuard(d.body, i)
    requires Advance(d, g, i).disk.Some?
    ensures !Loads(Advance(d, g, i).disk.value)
  {
    var x := Dispatch(d, g, i);
    ConclusionWrites(d, x, i);
    assert !SameTaskAcrossRoles(x.body.results);
  }

  lemma ArchitectingRejects(d: Doc, g: Git, i: StepInput)
    requires AtRest(d, g) && d.phase.Architecting? && InputFits(d.body, g, i) && !ArchitectingGuard(d.body, i)
    requires Advance(d, g, i).disk.Some?
    ensures !Loads(Advance(d, g, i).disk.value)
  {
    var x := Dispatch(d, g, i);
    ConclusionWrites(d, x, i);
    assert x.body.question.Some? && !ValidQuestion(x.body.question.value);
  }

  lemma BuildingRejects(d: Doc, g: Git, i: StepInput)
    requires AtRest(d, g) && d.phase.Building? && InputFits(d.body, g, i) && !BuildingGuard(d.body, g, i)
    requires Advance(d, g, i).disk.Some?
    ensures !Loads(Advance(d, g, i).disk.value)
  {
    var x := Dispatch(d, g, i);
    ConclusionWrites(d, x, i);
    assert x.body.question == d.body.question && x.body.results.builder == Some(i.builder.value);
    assert x.raise.Operational? && !QuestionMatchesSource(x.body.results, x.body.question.value);
  }

  lemma VerifyingRejects(d: Doc, g: Git, i: StepInput)
    requires AtRest(d, g) && d.phase.Verifying? && InputFits(d.body, g, i) && !VerifyingGuard(d.body, g, i)
    requires Concluded(d, DoVerifying(d.body, g, i), i).disk.Some?
    ensures !Loads(Concluded(d, DoVerifying(d.body, g, i), i).disk.value)
  {
    var x := DoVerifying(d.body, g, i);
    ConclusionWrites(d, x, i);
    EditKeeps(g, d.body.task.path.value, i.edit);
    assert HeadAt(x.git, d.body.task.path.value) != x.body.lastTaskHead;
  }

  lemma AuditingMoves(b: Body, g: Git, i: StepInput)
    requires Resting(b, g, Auditing) && EditFits(g, i.edit) && !AuditingGuard(b, g, i)
    ensures var x := DoAuditing(b, g, i);
      && !x.raise.Escapes? && !x.raise.InputRequired? && !x.raise.LoopFailure?
      && x.body.task == b.task && x.body.lastTaskHead == b.lastTaskHead
      && x.git == WorktreeEdit(b.task, g, i.edit) && (x.phase.Auditing? || x.phase.Merging?)
      && (x.raise.Operational? ==> !x.raise.fault.kind.MergeConflictKind?)
  {
  }

  lemma AuditingRejects(d: Doc, g: Git, i: StepInput)
    requires AtRest(d, g) && d.phase.Auditing? && InputFits(d.body, g, i) && !AuditingGuard(d.body, g, i)
    requires Concluded(d, DoAuditing(d.body, g, i), i).disk.Some?
    ensures !Loads(Concluded(d, DoAuditing(d.body, g, i), i).disk.value)
  {
    AuditingMoves(d.body, g, i);
    ConclusionWrites(d, DoAuditing(d.body, g, i), i);
    EditKeeps(g, d.body.task.path.value, i.edit);
  }

  /** Writer/reader closure, exactly: what is persisted can be read back if and only if the
      guard of the phase that ran held. */
  lemma PersistedLoadsExactly(d: Doc, g: Git, i: StepInput)
    requires AtRest(d, g) && InputFits(d.body, g, i) && NonEmptyMessages(i)
    requires Advance(d, g, i).disk.Some?
    ensures Loads(Advance(d, g, i).disk.value) <==> PhaseGuard(d, g, i)
  {
    if PhaseGuard(d, g, i) {
      AdvanceRests(d, g, i);
    } else {
      match d.phase
      case Planning => PlanningRejects(d, g, i);
      case Architecting => ArchitectingRejects(d, g, i);
      case Building => BuildingRejects(d, g, i);
      case Verifying => VerifyingRejects(d, g, i);
      case Auditing => AuditingRejects(d, g, i);
    }
  }
}
