/** Runs whose documents can be read back: when they can, and what resume makes of them. */
module Readable {
  import opened Document
  import opened Repository
  import opened Transitions
  import opened Invariant
  import opened PhaseSteps
  import opened Closure
  import opened Conservation
  import opened Resume
  import opened Merges
  import opened Runs

  // ------------------------------------------------------------ the invariant

  /** What is true of a readable document on disk whatever has become of the process. */
  predicate Persisted(d: Doc, g: Git) {
    && WellFormed(g) && Loads(d) && RetriesOk(d)
    && TaskBudgetOk(d.body)
    && (d.lastError.Some? ==> d.phase.OperationalFailure? || d.phase.Failed?)
    && (!IsTerminal(d.phase) ==> Settled(d.body, EffectivePhase(d)))
    && (EffectivePhase(d).CleanupWorktree? || EffectivePhase(d).CleanupBranch? ==>
          WorktreeAgrees(d.body, g, EffectivePhase(d)))
  }

  predicate Sound(w: World) {
    Sane(w) && Persisted(w.doc, w.git) && (w.alive ==> AtRest(w.doc, w.git))
  }

  lemma NewRunIsSound(h: Header, o: Options, g: Git)
    requires WellFormed(g) && HeaderOk(h) && OptionsOk(o) && h.startCommit == MainHead(g)
    ensures Sound(NewRun(h, o, g))
  {
    MainIsCanonical(g);
    NewRunIsSane(h, o, g);
  }

  /** Exceptions from outside carry a message. */
  predicate SaysWhy(e: Event) {
    && (e.Advances? ==> NonEmptyMessages(e.i))
    && (e.StartupFails? ==> e.message != "")
  }

  /** A step that persists something meets the guard of its phase. */
  predicate GuardHolds(w: World, e: Event)
    requires Legal(w, e)
  {
    e.Advances? && Advance(w.doc, w.git, e.i).disk.Some? ==> PhaseGuard(w.doc, w.git, e.i)
  }

  // -------------------------------------------------------- event by event

  lemma CleanupEffectAgrees(d: Doc, g: Git, i: StepInput)
    requires AtRest(d, g) && (d.phase.CleanupWorktree? || d.phase.CleanupBranch?)
    ensures WorktreeAgrees(d.body, if d.phase.CleanupWorktree? then DoCleanupWorktree(d.body, g, i).git
                                   else DoCleanupBranch(d.body, g, i).git, d.phase)
  {
    if d.phase.CleanupWorktree? {
      CleanupWorktreeLands(d.body, g, i);
    } else {
      CleanupBranchLands(d.body, g, i);
    }
  }

  lemma StaysPersisted(d: Doc, g: Git, h: Git)
    requires AtRest(d, g) && WellFormed(h) && !IsTerminal(d.phase)
    requires EffectivePhase(d).CleanupWorktree? || EffectivePhase(d).CleanupBranch? ==> WorktreeAgrees(d.body, h, EffectivePhase(d))
    ensures Persisted(d, h)
  {
  }

  lemma EffectAgrees(d: Doc, g: Git, i: StepInput)
    requires AtRest(d, g) && InputFits(d.body, g, i) && !IsTerminal(d.phase)
    requires EffectivePhase(d).CleanupWorktree? || EffectivePhase(d).CleanupBranch?
    ensures WorktreeAgrees(d.body, Dispatch(d, g, i).git, EffectivePhase(d))
  {
    if !d.phase.OperationalFailure? {
      CleanupEffectAgrees(d, g, i);
    }
  }

  /** The repository as a step that is never saved leaves it. */
  lemma EffectStaysPersisted(d: Doc, g: Git, i: StepInput)
    requires AtRest(d, g) && InputFits(d.body, g, i) && !IsTerminal(d.phase)
    ensures Persisted(d, Dispatch(d, g, i).git)
  {
    DispatchConserves(d, g, i);
    if EffectivePhase(d).CleanupWorktree? || EffectivePhase(d).CleanupBranch? {
      EffectAgrees(d, g, i);
    }
    StaysPersisted(d, g, Dispatch(d, g, i).git);
  }

  lemma AdvanceStaysSound(w: World, i: StepInput)
    requires Sound(w) && Legal(w, Advances(i)) && NonEmptyMessages(i) && GuardHolds(w, Advances(i))
    ensures Sound(After(w, Advances(i)))
  {
    AdvanceStaysSane(w, i);
    if !IsTerminal(w.doc.phase) {
      ConclusionIsHonest(w.doc, Dispatch(w.doc, w.git, i), i);
      if Advance(w.doc, w.git, i).disk.Some? {
        SavedStepRests(w.doc, w.git, i);
      } else {
        EffectStaysPersisted(w.doc, w.git, i);
      }
    }
  }

  lemma SavedStepRests(d: Doc, g: Git, i: StepInput)
    requires AtRest(d, g) && InputFits(d.body, g, i) && NonEmptyMessages(i) && PhaseGuard(d, g, i) && !IsTerminal(d.phase)
    requires Concluded(d, Dispatch(d, g, i), i).disk.Some?
    ensures AtRest(Concluded(d, Dispatch(d, g, i), i).disk.value, Dispatch(d, g, i).git)
  {
    AdvanceRests(d, g, i);
  }

  lemma StartupStaysSound(w: World, message: string, save: SaveChoice)
    requires Sound(w) && Legal(w, StartupFails(message, save)) && message != ""
    ensures Sound(After(w, StartupFails(message, save)))
  {
    StepStaysSane(w, StartupFails(message, save));
    AtRestIsSaveable(w.doc, w.git);
    FailureRests(w.doc, w.git, Fault(ServerStartupKind, Reported(message)), EffectivePhase(w.doc), w.doc.phase, save);
  }

  lemma CrashStaysSound(w: World, i: StepInput)
    requires Sound(w) && Legal(w, Crashes(i))
    ensures Sound(After(w, Crashes(i)))
  {
    CrashStaysSane(w, i);
    EffectStaysPersisted(w.doc, w.git, i);
  }

  lemma RetryStaysSound(w: World, save: SaveChoice)
    requires Sound(w) && Legal(w, CountsRetry(save))
    ensures Sound(After(w, CountsRetry(save)))
  {
    StepStaysSane(w, CountsRetry(save));
    CountedRetryRests(w.doc, w.git, save);
  }

  /** Resume validation restores what a crash may have broken. */
  lemma ResumeStaysSound(w: World)
    requires Sound(w) && Legal(w, Resumed)
    ensures Sound(After(w, Resumed))
  {
    StepStaysSane(w, Resumed);
  }

  lemma StepStaysSound(w: World, e: Event)
    requires Sound(w) && Legal(w, e) && SaysWhy(e) && GuardHolds(w, e)
    ensures Sound(After(w, e))
  {
    match e
    case Advances(i) => AdvanceStaysSound(w, i);
    case CountsRetry(save) => RetryStaysSound(w, save);
    case StartupFails(message, save) => StartupStaysSound(w, message, save);
    case Crashes(i) => CrashStaysSound(w, i);
    case Resumed => ResumeStaysSound(w);
  }

  /** Where the guard fails, what is written cannot be read back. */
  lemma BrokenGuardShows(w: World, e: Event)
    requires Sound(w) && Legal(w, e) && SaysWhy(e) && !GuardHolds(w, e)
    ensures !Loads(After(w, e).doc)
  {
    PersistedLoadsExactly(w.doc, w.git, e.i);
  }

  // ------------------------------------------------------------ whole runs

  predicate AllSayWhy(events: seq<Event>) {
    forall k :: 0 <= k < |events| ==> SaysWhy(events[k])
  }

  /** Whatever is on disk along the run can be read back. */
  predicate AllLoad(w: World, events: seq<Event>)
    requires LegalRun(w, events)
    decreases events
  {
    Loads(w.doc) && (events == [] || AllLoad(After(w, events[0]), events[1..]))
  }

  predicate AllGuardsHold(w: World, events: seq<Event>)
    requires LegalRun(w, events)
    decreases events
  {
    events == [] || (GuardHolds(w, events[0]) && AllGuardsHold(After(w, events[0]), events[1..]))
  }

  lemma {:induction false} LoadsWhileGuardsHold(w: World, events: seq<Event>)
    requires Sound(w) && LegalRun(w, events) && AllSayWhy(events)
    ensures AllLoad(w, events) <==> AllGuardsHold(w, events)
    ensures AllGuardsHold(w, events) ==> Sound(AfterAll(w, events))
    decreases events
  {
    if events != [] {
      assert SaysWhy(events[0]);
      assert AllSayWhy(events[1..]) by {
        assert forall k :: 0 <= k < |events[1..]| ==> events[1..][k] == events[k + 1];
      }
      if GuardHolds(w, events[0]) {
        StepStaysSound(w, events[0]);
        LoadsWhileGuardsHold(After(w, events[0]), events[1..]);
      } else {
        BrokenGuardShows(w, events[0]);
        assert !AllLoad(After(w, events[0]), events[1..]);
      }
    }
  }

  /** While documents can be read back, what is accepted and merged is what was verified. */
  lemma ReadableTaskIsVerified(w: World)
    requires Sound(w) && IsMergeOrCleanup(EffectivePhase(w.doc))
    ensures w.acceptedAt == w.verifiedAt
  {
  }

  lemma ReviewsStayVerified(w: World, e: Event)
    requires Sound(w) && Legal(w, e) && forall r :: r in w.reviews ==> r.accepted == r.verified
    ensures forall r :: r in After(w, e).reviews ==> r.accepted == r.verified
  {
    if (e.Advances? || e.Crashes?) && !IsTerminal(w.doc.phase) {
      DispatchConserves(w.doc, w.git, e.i);
      NewReviewIsVerified(w, e.i);
    }
  }

  lemma NewReviewIsVerified(w: World, i: StepInput)
    requires Sound(w) && InputFits(w.doc.body, w.git, i) && !IsTerminal(w.doc.phase) && HasMain(Dispatch(w.doc, w.git, i).git)
    requires forall r :: r in w.reviews ==> r.accepted == r.verified
    ensures forall r :: r in Reviewed(w, Dispatch(w.doc, w.git, i).git) ==> r.accepted == r.verified
  {
    if MainHead(Dispatch(w.doc, w.git, i).git) != MainHead(w.git) {
      MergeIsInHand(w, i);
      ReadableTaskIsVerified(w);
    }
  }

  lemma {:induction false} ReadableRunsMergeVerified(w: World, events: seq<Event>)
    requires Sound(w) && LegalRun(w, events) && AllSayWhy(events) && AllGuardsHold(w, events)
    requires forall r :: r in w.reviews ==> r.accepted == r.verified
    ensures forall r :: r in AfterAll(w, events).reviews ==> r.accepted == r.verified
    decreases events
  {
    if events != [] {
      assert SaysWhy(events[0]);
      assert AllSayWhy(events[1..]) by {
        assert forall k :: 0 <= k < |events[1..]| ==> events[1..][k] == events[k + 1];
      }
      ReviewsStayVerified(w, events[0]);
      StepStaysSound(w, events[0]);
      ReadableRunsMergeVerified(After(w, events[0]), events[1..]);
    }
  }

  /** Writer/reader closure over whole runs, exactly: everything a new run ever has on disk can be
      read back if and only if every step that persists something meets the guard of its phase. Such
      a run merges only the heads that were verified. */
  lemma EveryPersistedStateLoads(h: Header, o: Options, g: Git, events: seq<Event>)
    requires WellFormed(g) && HeaderOk(h) && OptionsOk(o) && h.startCommit == MainHead(g)
    requires LegalRun(NewRun(h, o, g), events) && AllSayWhy(events)
    ensures AllLoad(NewRun(h, o, g), events) <==> AllGuardsHold(NewRun(h, o, g), events)
    ensures AllLoad(NewRun(h, o, g), events) ==>
              var d := AfterAll(NewRun(h, o, g), events).doc;
              d.lastError.Some? <==> d.phase.OperationalFailure? || d.phase.Failed?
    ensures AllLoad(NewRun(h, o, g), events) ==>
              forall r :: r in AfterAll(NewRun(h, o, g), events).reviews ==> r.accepted == r.verified
  {
    NewRunIsSound(h, o, g);
    LoadsWhileGuardsHold(NewRun(h, o, g), events);
    if AllGuardsHold(NewRun(h, o, g), events) {
      ReadableRunsMergeVerified(NewRun(h, o, g), events);
    }
  }

  // ------------------------------------------------------- stop and resume

  lemma CheckpointIsCurrent(d: Doc, g: Git)
    requires HasMain(g) && Checkpoint(d, g).Some?
    ensures Current(Checkpoint(d, g).value, g)
  {
  }

  lemma FailureIsCurrent(e: Doc, g: Git, f: Fault, failedPhase: Phase, before: Phase, choice: SaveChoice)
    requires HasMain(g)
    ensures var s := FailOperationally(e, g, f, failedPhase, before, choice);
      s.disk.Some? ==> Current(s.disk.value, g)
  {
    var d1 := WithFailure(e, g, f, failedPhase);
    if Checkpoint(d1, g).Some? {
      CheckpointIsCurrent(d1, g);
    }
  }

  /** What is written describes the repository as it then is. */
  lemma ConclusionIsCurrent(d: Doc, x: Dispatched, i: StepInput)
    requires HasMain(x.git)
    ensures var s := Concluded(d, x, i);
      s.disk.Some? ==> Current(s.disk.value, x.git)
  {
    var e := InMemory(d, x);
    match x.raise
    case NoRaise => TransitionIsCurrent(e, x.git, d.phase, SuccessStatus(d.phase, x.phase, i), i);
    case InputRequired =>
      if Checkpoint(ResetRetries(e, d.phase), x.git).Some? {
        CheckpointIsCurrent(ResetRetries(e, d.phase), x.git);
      }
    case Operational(f) => FailureIsCurrent(e, x.git, f, d.phase, d.phase, i.failureSave);
    case LoopFailure(_) =>
    case Escapes =>
  }

  lemma TransitionIsCurrent(e: Doc, g: Git, before: Phase, status: Status, i: StepInput)
    requires HasMain(g)
    ensures var s := SaveAfterTransition(e, g, before, status, i);
      s.disk.Some? ==> Current(s.disk.value, g)
  {
    var e1 := if status.InputUnavailable? then e else ResetRetries(e, before);
    match Save(e1, g, i.save)
    case SavedAs(_) => CheckpointIsCurrent(e1, g);
    case SaveFails(Some(f)) => FailureIsCurrent(e1, g, f, if IsTerminal(e.phase) then before else e.phase, before, i.failureSave);
    case SaveFails(None) =>
  }

  lemma LedgerAllowsBranchCleanup(b: Body, g: Git, merged: seq<string>)
    requires WellFormed(g) && FullTask(b.task) && LedgerAgrees(b, CleanupBranch, g, merged)
    ensures b.task.branch.value in g.branches ==> Reaches(g.commits, MainHead(g), g.branches[b.task.branch.value])
  {
    var task := b.intents.mergeTask.value;
    assert g.commits[MainHead(g)].parents[1] == task;
    assert task in g.commits[MainHead(g)].parents;
    if b.task.branch.value in g.branches {
      assert Reaches(g.commits, task, task);
    }
  }

  /** A run stopped after a saved step can be resumed if and only if the step met its guard, no
      merge left the integration worktree dirty, and no agent took its branch off its base. */
  lemma SavedStepCanBeResumed(w: World, i: StepInput)
    requires Sound(w) && Legal(w, Advances(i)) && NonEmptyMessages(i) && !IsTerminal(w.doc.phase)
    requires Advance(w.doc, w.git, i).disk.Some? && !IsTerminal(After(w, Advances(i)).doc.phase)
    requires SameRepository(After(w, Advances(i)).doc.body.header, After(w, Advances(i)).git)
    ensures var v := After(w, Advances(i));
      Loads(v.doc) && ResumeAccepts(v.doc, v.git) <==>
        PhaseGuard(w.doc, w.git, i) && v.git.mainStatus == [] && BaseKept(v.doc, v.git)
  {
    var v := After(w, Advances(i));
    PersistedLoadsExactly(w.doc, w.git, i);
    if PhaseGuard(w.doc, w.git, i) {
      ConclusionIsHonest(w.doc, Dispatch(w.doc, w.git, i), i);
      AdvanceStaysSound(w, i);
      ConclusionIsCurrent(w.doc, Dispatch(w.doc, w.git, i), i);
      StoppedWorldResumes(v);
    }
  }

  lemma StoppedWorldResumes(v: World)
    requires Sound(v) && v.alive && !IsTerminal(v.doc.phase) && SameRepository(v.doc.body.header, v.git) && Current(v.doc, v.git)
    ensures ResumeAccepts(v.doc, v.git) <==> v.git.mainStatus == [] && BaseKept(v.doc, v.git)
  {
    if EffectivePhase(v.doc).CleanupBranch? {
      LedgerAllowsBranchCleanup(v.doc.body, v.git, v.merged);
    }
    StoppedRunResumes(v.doc, v.git);
  }
}
