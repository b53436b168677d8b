/** Which head is reviewed and merged: the one the builder's report was verified at, if and only if
    the task HEAD is still there when the auditor accepts. */
module Reviews {
  import opened Text
  import opened Document
  import opened Repository
  import opened Transitions
  import opened Invariant
  import opened PhaseSteps
  import opened Closure
  import opened Conservation
  import opened Carrying
  import opened Merges

  /** The task worktree's HEAD. */
  function LiveHead(t: Task, g: Git): string {
    OrEmpty(HeadAt(g, OrEmpty(t.path)))
  }

  predicate ReviewInput(d: Doc, g: Git, i: StepInput) {
    HasMain(g) && |i.runs| == |d.body.options.verifyCommands| && !IsTerminal(d.phase)
  }

  /** What `verify_builder_commit` returned in a step, if the build led on. */
  function BuildVerified(d: Doc, g: Git, i: StepInput): Option<string>
    requires ReviewInput(d, g, i)
  {
    if d.phase.Building? && IsPostBuild(Dispatch(d, g, i).phase) && HasWorktree(d.body.task) && i.builder.Replied?
    then
      var v := Verified(d.body, WorktreeEdit(d.body.task, g, i.edit), i.builder.value);
      if v.Ok? then Some(v.value) else None
    else None
  }

  /** The HEAD when the auditor's ACCEPT was acted on. */
  function AcceptedHead(d: Doc, g: Git, i: StepInput): Option<string>
    requires ReviewInput(d, g, i)
  {
    var x := Dispatch(d, g, i);
    if d.phase.Auditing? && x.phase.Merging? then Some(LiveHead(d.body.task, x.git)) else None
  }

  /** A build leads on only with the head `verify_builder_commit` returned, which is the live one. */
  lemma BuildVerifies(d: Doc, g: Git, i: StepInput)
    requires ReviewInput(d, g, i) && d.phase.Building?
    ensures var x := Dispatch(d, g, i);
      IsPostBuild(x.phase) ==>
        && x.raise.NoRaise? && BuildVerified(d, g, i).Some? && x.body.lastTaskHead == BuildVerified(d, g, i)
        && BuildVerified(d, g, i) == Some(LiveHead(d.body.task, x.git))
  {
  }

  /** ACCEPT captures the live HEAD: it is the verified one if and only if the HEAD is still there. */
  lemma AcceptCapturesLiveHead(d: Doc, g: Git, i: StepInput)
    requires ReviewInput(d, g, i) && d.phase.Auditing? && Dispatch(d, g, i).phase.Merging?
    ensures var x := Dispatch(d, g, i);
      && x.raise.NoRaise? && x.body.lastTaskHead == d.body.lastTaskHead
      && x.body.intents.mergeTask == HeadAt(x.git, OrEmpty(d.body.task.path)) == AcceptedHead(d, g, i)
  {
  }

  /** From a state at rest: the head to merge is the verified one if and only if the audit did not move it. */
  lemma AcceptedHeadIsVerified(d: Doc, g: Git, i: StepInput)
    requires AtRest(d, g) && InputFits(d.body, g, i) && d.phase.Auditing? && Dispatch(d, g, i).phase.Merging?
    ensures Dispatch(d, g, i).body.intents.mergeTask == d.body.lastTaskHead <==> !MovesHead(d.body, g, i.edit)
  {
    AcceptCapturesLiveHead(d, g, i);
    AgentOnlyEdits(d, g, i);
    assert Dispatch(d, g, i).git == WorktreeEdit(d.body.task, g, i.edit);
  }

  // --------------------------------------------------- the unverified merge

  /** An auditor who commits and then accepts has the run go on to merge what was never verified. */
  lemma MovedHeadIsAccepted(d: Doc, g: Git, i: StepInput)
    requires AtRest(d, g) && InputFits(d.body, g, i) && d.phase.Auditing? && MovesHead(d.body, g, i.edit)
    requires Dispatch(d, g, i).phase.Merging? && i.save.SaveWorks?
    ensures Iterate(d, g, i).GoesOn?
    ensures var (e, h) := (Iterate(d, g, i).doc, Iterate(d, g, i).git);
      && e.phase.Merging? && e.body.lastTaskHead == d.body.lastTaskHead && e.body.intents.mergeTask != e.body.lastTaskHead
      && e.body.intents.mergeTask == HeadAt(h, OrEmpty(e.body.task.path)) && e.body.intents.mergePre == Some(MainHead(h))
  {
    var x := Dispatch(d, g, i);
    AcceptedHeadIsVerified(d, g, i);
    AcceptCapturesLiveHead(d, g, i);
    AcceptPreparesMerge(d.body, g, i);
    SavedAccept(d, x, i);
  }

  lemma AcceptPreparesMerge(b: Body, g: Git, i: StepInput)
    requires HasMain(g) && DoAuditing(b, g, i).phase.Merging?
    ensures var x := DoAuditing(b, g, i);
      && x.body.intents.mergePre == Some(MainHead(x.git)) && x.body.task == b.task
      && b.task.path.Some? && HeadAt(x.git, b.task.path.value).Some?
  {
  }

  lemma SavedAccept(d: Doc, x: Dispatched, i: StepInput)
    requires HasMain(x.git) && d.phase.Auditing? && x.phase.Merging? && x.raise.NoRaise? && i.save.SaveWorks?
    requires x.body.task.path.Some? && HeadAt(x.git, x.body.task.path.value).Some?
    ensures var r := Continuation(d, x, i);
      r.GoesOn? && r.git == x.git && r.doc.body == x.body && r.doc.phase.Merging?
  {
  }

  /** Merging compares the live HEAD only with what ACCEPT captured: whatever that is gets merged. */
  lemma CapturedHeadIsMerged(b: Body, g: Git, i: StepInput)
    requires WellFormed(g) && InputFits(b, g, i) && HasWorktree(b.task) && g.mainStatus == []
    requires b.intents.mergePre == Some(MainHead(g)) && b.intents.mergeTask.Some?
    requires HeadAt(g, b.task.path.value) == b.intents.mergeTask && !Reaches(g.commits, MainHead(g), b.intents.mergeTask.value)
    requires i.gitBefore.None? && i.gitAfter.None? && i.merge.Merged?
    ensures var x := DoMerging(b, g, i);
      && x.raise.NoRaise? && x.phase.CleanupWorktree? && x.body.intents.mergeCommit == Some(MainHead(x.git))
      && IsMergeOfBoth(x.git.commits, MainHead(x.git), MainHead(g), b.intents.mergeTask.value)
  {
    NothingNewAtHead(g.commits, MainHead(g));
  }

  // ------------------------------------------------------- heads in every phase

  /** How the verified and the captured head get into a body that resumes after the build. */
  predicate HeadsFollow(d: Doc, x: Dispatched, verified: Option<string>, accepted: Option<string>) {
    forall p :: p in Resumes(d, x) ==>
      && (IsPostBuild(p) ==>
            x.body.lastTaskHead == if verified.Some? then verified
                                   else if IsPostBuild(EffectivePhase(d)) then d.body.lastTaskHead else None)
      && (IsPostBuild(p) ==> verified.Some? || IsPostBuild(EffectivePhase(d)))
      && (IsMergeOrCleanup(p) ==>
            x.body.intents.mergeTask == if accepted.Some? then accepted else d.body.intents.mergeTask)
      && (IsMergeOrCleanup(p) ==> accepted.Some? || IsMergeOrCleanup(EffectivePhase(d)))
  }

  lemma PlanningStaysEarly(b: Body, g: Git, i: StepInput)
    requires HasMain(g)
    ensures !IsPostBuild(DoPlanning(b, g, i).phase)
  {
  }

  lemma CreatingStaysEarly(b: Body, g: Git, i: StepInput)
    requires HasMain(g)
    ensures !IsPostBuild(DoCreatingWorktree(b, g, i).phase)
  {
  }

  lemma DecidingStaysEarly(b: Body, g: Git, i: StepInput)
    requires HasMain(g)
    ensures !IsPostBuild(DoArchitecting(b, g, i).phase) && !IsPostBuild(DoRecordingDecision(b, g, i).phase)
  {
  }

  lemma ResolvingStaysEarly(b: Body, g: Git, answer: string, i: StepInput)
    ensures !IsPostBuild(ResolveInput(b, g, answer, i).phase)
  {
  }

  lemma BuildingStops(b: Body, g: Git, i: StepInput)
    requires HasMain(g)
    ensures !IsMergeOrCleanup(DoBuilding(b, g, i).phase)
  {
  }

  lemma VerifyingKeepsHead(b: Body, g: Git, i: StepInput)
    requires HasMain(g) && |i.runs| == |b.options.verifyCommands|
    ensures var x := DoVerifying(b, g, i);
      x.body.lastTaskHead == b.lastTaskHead && !IsMergeOrCleanup(x.phase)
  {
  }

  lemma AuditingKeepsHead(b: Body, g: Git, i: StepInput)
    requires HasMain(g)
    ensures var x := DoAuditing(b, g, i);
      x.body.lastTaskHead == b.lastTaskHead && (IsMergeOrCleanup(x.phase) ==> x.phase.Merging? && x.raise.NoRaise?)
  {
  }

  lemma LateKeepsHeads(d: Doc, g: Git, i: StepInput)
    requires ReviewInput(d, g, i) && IsMergeOrCleanup(d.phase)
    ensures var x := Dispatch(d, g, i);
      IsPostBuild(x.phase) && !x.raise.Escapes? && !x.raise.LoopFailure? ==>
        x.body.lastTaskHead == d.body.lastTaskHead && x.body.intents.mergeTask == d.body.intents.mergeTask
  {
  }

  lemma DispatchFollows(d: Doc, g: Git, i: StepInput)
    requires CarriedDoc(d, g) && InputFits(d.body, g, i) && !IsTerminal(d.phase)
    ensures HeadsFollow(d, Dispatch(d, g, i), BuildVerified(d, g, i), AcceptedHead(d, g, i))
  {
    DispatchGoes(d, g, i);
    match d.phase
    case Planning => PlanningStaysEarly(d.body, g, i);
    case CreatingWorktree => CreatingStaysEarly(d.body, g, i);
    case Architecting => DecidingStaysEarly(d.body, g, i);
    case RecordingDecision => DecidingStaysEarly(d.body, g, i);
    case AwaitingInput => if i.answer.Some? { ResolvingStaysEarly(d.body, g, i.answer.value, i); }
    case Building =>
      BuildVerifies(d, g, i);
      BuildingStops(d.body, g, i);
    case Verifying => VerifyingKeepsHead(d.body, g, i);
    case Auditing =>
      AuditingKeepsHead(d.body, g, i);
      if Dispatch(d, g, i).phase.Merging? { AcceptCapturesLiveHead(d, g, i); }
    case OperationalFailure =>
    case _ => LateKeepsHeads(d, g, i);
  }
}
