/** Whole runs: any sequence of steps, counted retries, failed startups, crashes and resumes, whether
    or not what is written on the way can be read back. */
module Runs {
  import opened Text
  import opened Document
  import opened Repository
  import opened Transitions
  import opened RepositoryFacts
  import opened Closure
  import opened Conservation
  import opened Resume
  import opened Termination
  import opened Carrying
  import opened Merges
  import opened Reviews

  /** What was known of a merged head: what `verify_builder_commit` had last returned for the task,
      and the live HEAD when ACCEPT was acted on. */
  datatype Review = Review(verified: string, accepted: string)

  /** The document on disk, which is also the one in memory of a supervisor that is alive, and the
      repository. The rest records history: the task heads merged, newest first, with their reviews;
      every head `verify_builder_commit` has returned, and the last one; the HEAD last accepted. */
  datatype World = World(
    doc: Doc,
    git: Git,
    alive: bool,
    merged: seq<string>,
    reviews: seq<Review>,
    verified: set<string>,
    verifiedAt: string,
    acceptedAt: string)

  /** What can happen to a run. A crash in a step falls after its repository effect; one before
      it is a crash with an `i` whose effect is nothing. */
  datatype Event =
    | Advances(i: StepInput)
    | CountsRetry(save: SaveChoice)
    | StartupFails(message: string, save: SaveChoice)
    | Crashes(i: StepInput)
    | Resumed

  predicate Legal(w: World, e: Event) {
    && HasMain(w.git)
    && match e
       case Advances(i) => w.alive && InputFits(w.doc.body, w.git, i)
       case CountsRetry(_) => w.alive && MayRetry(w.doc)
       case StartupFails(_, _) => w.alive && !IsTerminal(w.doc.phase)
       case Crashes(i) => w.alive && InputFits(w.doc.body, w.git, i) && !IsTerminal(w.doc.phase)
       case Resumed => !w.alive && Loads(w.doc) && ResumeAccepts(w.doc, w.git)
  }

  /** The reviews after a step: that of the task in hand is added when the integration HEAD moves. */
  function Reviewed(w: World, h: Git): seq<Review>
    requires HasMain(w.git) && HasMain(h)
  {
    if MainHead(h) != MainHead(w.git) then [Review(w.verifiedAt, w.acceptedAt)] + w.reviews else w.reviews
  }

  /** A step of a live run, up to what is persisted. */
  function Stepped(w: World, i: StepInput): World
    requires Legal(w, Advances(i)) && !IsTerminal(w.doc.phase)
  {
    var s := Concluded(w.doc, Dispatch(w.doc, w.git, i), i);
    var v, a := BuildVerified(w.doc, w.git, i), AcceptedHead(w.doc, w.git, i);
    World(if s.disk.Some? then s.disk.value else w.doc, s.git, s.result.Returned?,
          Recorded(w.doc.body, w.git, s.git, w.merged), Reviewed(w, s.git),
          if v.Some? then w.verified + {v.value} else w.verified,
          if v.Some? then v.value else w.verifiedAt,
          if a.Some? then a.value else w.acceptedAt)
  }

  function After(w: World, e: Event): World
    requires Legal(w, e)
  {
    match e
    case Advances(i) => if IsTerminal(w.doc.phase) then w else Stepped(w, i)
    case CountsRetry(save) =>
      (match CountRetry(w.doc, w.git, save)
       case GoesOn(d, _) => w.(doc := d)
       case Stops(_, _, _) => w.(alive := false))
    case StartupFails(message, save) =>
      var s := StartupFailure(w.doc, w.git, message, save);
      if s.disk.Some? then w.(doc := s.disk.value) else w.(alive := false)
    case Crashes(i) =>
      var h := Dispatch(w.doc, w.git, i).git;
      w.(git := h, alive := false, merged := Recorded(w.doc.body, w.git, h, w.merged), reviews := Reviewed(w, h))
    case Resumed => w.(alive := true)
  }

  predicate LegalRun(w: World, events: seq<Event>)
    decreases events
  {
    events == [] || (Legal(w, events[0]) && LegalRun(After(w, events[0]), events[1..]))
  }

  function AfterAll(w: World, events: seq<Event>): World
    requires LegalRun(w, events)
    decreases events
  {
    if events == [] then w else AfterAll(After(w, events[0]), events[1..])
  }

  // -------------------------------------------------------------- a new run

  /** `start_new_run` in a clean repository. */
  function NewRun(h: Header, o: Options, g: Git): World
    requires HasMain(g)
  {
    World(Doc(Body(h, o, Task(None, None, None, None), Results(None, None, None, None, None, None, None),
                   Counters(0, 0, 0, 0, 0), None, None, Intents(None, None, None, None, None, None, None, None)),
              Planning, None, 0, Checkpoints(MainHead(g), g.mainStatus, None, None)),
          g, true, [], [], {}, "", "")
  }

  // ------------------------------------------------------------ the invariant

  /** The document's heads are the ones history knows, and every merge has its review. */
  predicate ReviewsAgree(w: World) {
    var p := EffectivePhase(w.doc);
    && (IsPostBuild(p) ==> w.doc.body.lastTaskHead == Some(w.verifiedAt) && w.verifiedAt in w.verified)
    && (IsMergeOrCleanup(p) ==> w.doc.body.intents.mergeTask == Some(w.acceptedAt))
    && EveryMergeReviewed(w.merged, w.reviews, w.verified)
  }

  predicate EveryMergeReviewed(merged: seq<string>, reviews: seq<Review>, verified: set<string>) {
    && |reviews| == |merged|
    && forall k :: 0 <= k < |merged| ==> reviews[k].accepted == merged[k] && reviews[k].verified in verified
  }

  /** What every run keeps: limits, the account of merges, and the account of reviews. */
  predicate Sane(w: World) {
    && CarriedDoc(w.doc, w.git)
    && LedgerAgrees(w.doc.body, EffectivePhase(w.doc), w.git, w.merged)
    && ReviewsAgree(w)
  }

  lemma NewRunIsSane(h: Header, o: Options, g: Git)
    requires WellFormed(g) && h.startCommit == MainHead(g)
    ensures Sane(NewRun(h, o, g))
  {
  }

  // -------------------------------------------------------- event by event

  /** The integration HEAD moves only in merging, and what moves it is the head captured at ACCEPT. */
  lemma MergeIsInHand(w: World, i: StepInput)
    requires Sane(w) && InputFits(w.doc.body, w.git, i) && !IsTerminal(w.doc.phase)
    requires HasMain(Dispatch(w.doc, w.git, i).git) && MainHead(Dispatch(w.doc, w.git, i).git) != MainHead(w.git)
    ensures w.doc.phase.Merging? && w.doc.body.intents.mergeTask == Some(w.acceptedAt) && w.verifiedAt in w.verified
  {
    if !IsMergeOrCleanup(w.doc.phase) && !w.doc.phase.OperationalFailure? {
      EarlyLeavesMain(w.doc, w.git, i);
    } else if w.doc.phase.CleanupWorktree? || w.doc.phase.CleanupBranch? {
      CleanupLeavesMain(w.doc.body, w.git, i);
    }
  }

  lemma CleanupLeavesMain(b: Body, g: Git, i: StepInput)
    requires WellFormed(g)
    ensures MainHead(DoCleanupWorktree(b, g, i).git) == MainHead(g) && MainHead(DoCleanupBranch(b, g, i).git) == MainHead(g)
  {
  }

  lemma EffectKeepsReviews(w: World, i: StepInput)
    requires Sane(w) && InputFits(w.doc.body, w.git, i) && !IsTerminal(w.doc.phase) && HasMain(Dispatch(w.doc, w.git, i).git)
    ensures var h := Dispatch(w.doc, w.git, i).git;
      EveryMergeReviewed(Recorded(w.doc.body, w.git, h, w.merged), Reviewed(w, h), w.verified)
  {
    if MainHead(Dispatch(w.doc, w.git, i).git) != MainHead(w.git) {
      MergeIsInHand(w, i);
    }
  }

  lemma CrashStaysSane(w: World, i: StepInput)
    requires Sane(w) && Legal(w, Crashes(i))
    ensures Sane(After(w, Crashes(i)))
  {
    DispatchConserves(w.doc, w.git, i);
    EffectCarries(w.doc, w.git, i);
    EffectKeepsLedger(w.doc, w.git, i, w.merged);
    EffectKeepsReviews(w, i);
  }

  lemma ConclusionKeepsLedger(d: Doc, x: Dispatched, i: StepInput, merged: seq<string>)
    requires HasMain(x.git) && !x.phase.OperationalFailure? && Concluded(d, x, i).disk.Some?
    requires forall p :: p in Resumes(d, x) ==> LedgerAgrees(x.body, p, x.git, merged)
    ensures var e := Concluded(d, x, i).disk.value;
      LedgerAgrees(e.body, EffectivePhase(e), x.git, merged)
  {
    ConclusionWrites(d, x, i);
  }

  lemma ConclusionKeepsHeads(d: Doc, x: Dispatched, i: StepInput, verified: Option<string>, accepted: Option<string>)
    requires HasMain(x.git) && !x.phase.OperationalFailure? && Concluded(d, x, i).disk.Some?
    requires HeadsFollow(d, x, verified, accepted)
    ensures var e := Concluded(d, x, i).disk.value;
      EffectivePhase(e) in Resumes(d, x) && e.body == x.body
  {
    ConclusionWrites(d, x, i);
  }

  /** A step that was persisted. */
  lemma SavedStepStaysSane(w: World, i: StepInput)
    requires Sane(w) && Legal(w, Advances(i)) && !IsTerminal(w.doc.phase)
    requires Concluded(w.doc, Dispatch(w.doc, w.git, i), i).disk.Some?
    ensures Sane(Stepped(w, i))
  {
    var x := Dispatch(w.doc, w.git, i);
    DispatchConserves(w.doc, w.git, i);
    AdvanceCarries(w.doc, w.git, i);
    DispatchKeepsTask(w.doc, w.git, i);
    DispatchKeepsLedger(w.doc, w.git, i, w.merged);
    ConclusionKeepsLedger(w.doc, x, i, Recorded(w.doc.body, w.git, x.git, w.merged));
    SavedReviewsAgree(w, i);
  }

  lemma SavedReviewsAgree(w: World, i: StepInput)
    requires Sane(w) && Legal(w, Advances(i)) && !IsTerminal(w.doc.phase) && HasMain(Dispatch(w.doc, w.git, i).git)
    requires Concluded(w.doc, Dispatch(w.doc, w.git, i), i).disk.Some?
    ensures ReviewsAgree(Stepped(w, i))
  {
    var x := Dispatch(w.doc, w.git, i);
    DispatchKeepsTask(w.doc, w.git, i);
    DispatchFollows(w.doc, w.git, i);
    ConclusionKeepsHeads(w.doc, x, i, BuildVerified(w.doc, w.git, i), AcceptedHead(w.doc, w.git, i));
    EffectKeepsReviews(w, i);
  }

  lemma AdvanceStaysSane(w: World, i: StepInput)
    requires Sane(w) && Legal(w, Advances(i))
    ensures Sane(After(w, Advances(i)))
  {
    if !IsTerminal(w.doc.phase) {
      ConclusionIsHonest(w.doc, Dispatch(w.doc, w.git, i), i);
      if Concluded(w.doc, Dispatch(w.doc, w.git, i), i).disk.Some? {
        SavedStepStaysSane(w, i);
      } else {
        LostStepStaysSane(w, i);
      }
    }
  }

  /** A step whose exception got out leaves the document that was there. */
  lemma LostStepStaysSane(w: World, i: StepInput)
    requires Sane(w) && Legal(w, Advances(i)) && !IsTerminal(w.doc.phase)
    requires Concluded(w.doc, Dispatch(w.doc, w.git, i), i).disk.None?
    ensures Sane(Stepped(w, i))
  {
    CrashStaysSane(w, i);
    HistoryIsAhead(After(w, Crashes(i)), Stepped(w, i), BuildVerified(w.doc, w.git, i), AcceptedHead(w.doc, w.git, i));
  }

  /** Heads learnt in a step of building or auditing concern no document that is still there. */
  lemma HistoryIsAhead(v: World, u: World, verified: Option<string>, accepted: Option<string>)
    requires Sane(v)
    requires u == v.(alive := u.alive,
                     verified := if verified.Some? then v.verified + {verified.value} else v.verified,
                     verifiedAt := if verified.Some? then verified.value else v.verifiedAt,
                     acceptedAt := if accepted.Some? then accepted.value else v.acceptedAt)
    requires verified.Some? ==> v.doc.phase.Building?
    requires accepted.Some? ==> v.doc.phase.Auditing?
    ensures Sane(u)
  {
  }

  lemma SameBodyStaysSane(w: World, d: Doc)
    requires Sane(w) && CarriedDoc(d, w.git) && d.body == w.doc.body && EffectivePhase(d) == EffectivePhase(w.doc)
    ensures Sane(w.(doc := d))
  {
  }

  lemma StepStaysSane(w: World, e: Event)
    requires Sane(w) && Legal(w, e)
    ensures Sane(After(w, e))
  {
    match e
    case Advances(i) => AdvanceStaysSane(w, i);
    case CountsRetry(save) =>
      if CountRetry(w.doc, w.git, save).GoesOn? {
        CountedRetryCarries(w.doc, w.git, save);
        CountedRetryKeeps(w.doc, w.git, save);
        SameBodyStaysSane(w, CountRetry(w.doc, w.git, save).doc);
      }
    case StartupFails(message, save) =>
      var s := StartupFailure(w.doc, w.git, message, save);
      if s.disk.Some? {
        StartupFailureCarries(w.doc, w.git, message, save);
        FailureWrites(w.doc, w.git, Fault(ServerStartupKind, Reported(message)), EffectivePhase(w.doc), w.doc.phase, save);
        SameBodyStaysSane(w, s.disk.value);
      }
    case Crashes(i) => CrashStaysSane(w, i);
    case Resumed =>
  }

  // ------------------------------------------------------------ whole runs

  lemma {:induction false} RunsStaySane(w: World, events: seq<Event>)
    requires Sane(w) && LegalRun(w, events)
    ensures Sane(AfterAll(w, events))
    decreases events
  {
    if events != [] {
      StepStaysSane(w, events[0]);
      RunsStaySane(After(w, events[0]), events[1..]);
    }
  }

  /** The task budget: never more accepted tasks than allowed, strictly fewer while a task is in
      hand or intended, so a finished run retains none; and retries within their limit. A run is
      finished only when the limit is reached or the planner has said there is no more work. An open
      failure is retried in the phase that failed, never a terminal one. */
  lemma RunsStayWithinBudget(h: Header, o: Options, g: Git, events: seq<Event>)
    requires WellFormed(g) && h.startCommit == MainHead(g)
    requires LegalRun(NewRun(h, o, g), events)
    ensures var d := AfterAll(NewRun(h, o, g), events).doc;
      && 0 <= d.body.counters.accepted <= d.body.options.maxAcceptedTasks
      && (!NoTask(d.body.task) || d.body.intents.treePath.Some? ==>
            d.body.counters.accepted < d.body.options.maxAcceptedTasks)
      && (d.phase.Done? ==> NoTask(d.body.task) && WorkIsOver(d.body))
      && 0 <= d.operationalRetries <= d.body.options.maxOperationalRetries
      && (d.phase.OperationalFailure? ==>
            d.lastError.Some? && IsRetryTarget(d.lastError.value.failedPhase) && EffectivePhase(d) == d.lastError.value.failedPhase)
  {
    NewRunIsSane(h, o, g);
    RunsStaySane(NewRun(h, o, g), events);
  }

  /** Exactly-once merge: the integration branch is the start commit plus one two-parent merge per
      accepted task, each onto the previous one, and one more while the last merged task is being
      cleaned up. What is merged is the HEAD at ACCEPT: it is the head `verify_builder_commit`
      returned for the task if and only if the task HEAD was then still where it was verified. */
  lemma EveryMergeIsReviewedOnce(h: Header, o: Options, g: Git, events: seq<Event>)
    requires WellFormed(g) && h.startCommit == MainHead(g)
    requires LegalRun(NewRun(h, o, g), events)
    ensures var w := AfterAll(NewRun(h, o, g), events);
      var p := EffectivePhase(w.doc);
      && HasMain(w.git)
      && MergesFrom(w.git.commits, MainHead(w.git), w.doc.body.header.startCommit, w.merged)
      && |w.merged| == w.doc.body.counters.accepted + (if IsMerged(w.doc.body, p, w.git) then 1 else 0)
      && (p.CleanupWorktree? || p.CleanupBranch? ==> IsMerged(w.doc.body, p, w.git))
      && |w.reviews| == |w.merged|
      && (forall k :: 0 <= k < |w.merged| ==>
            && w.reviews[k].verified in w.verified && w.merged[k] == w.reviews[k].accepted
            && (w.merged[k] == w.reviews[k].verified <==> w.reviews[k].accepted == w.reviews[k].verified))
  {
    NewRunIsSane(h, o, g);
    RunsStaySane(NewRun(h, o, g), events);
  }

  // ---------------------------------------------------- conservation of work

  /** Along a run every commit a ref reaches at some time is still reached at the next. */
  ghost predicate NeverLoses(w: World, events: seq<Event>)
    requires LegalRun(w, events)
    decreases events
  {
    events == [] || (RefsKept(w.git, After(w, events[0]).git) && NeverLoses(After(w, events[0]), events[1..]))
  }

  /** No agent leaves the old tip of its task branch behind. */
  predicate TipsKept(w: World, events: seq<Event>)
    requires LegalRun(w, events)
    decreases events
  {
    events == [] ||
    (TipKept(w.doc.body.task, w.git, After(w, events[0]).git) && TipsKept(After(w, events[0]), events[1..]))
  }

  predicate NeverDropsDirty(w: World, events: seq<Event>)
    requires LegalRun(w, events)
    decreases events
  {
    events == [] || (DirtyTreesKept(w.git, After(w, events[0]).git) && NeverDropsDirty(After(w, events[0]), events[1..]))
  }

  lemma EventConserves(w: World, e: Event)
    requires WellFormed(w.git) && Legal(w, e)
    ensures Preserves(w.git, After(w, e).git)
    ensures RefsKept(w.git, After(w, e).git) <==> TipKept(w.doc.body.task, w.git, After(w, e).git)
  {
    NothingConserves(w.git);
    KeptRefsKeepTip(w.doc.body.task, w.git, w.git);
    match e
    case Advances(i) =>
      if !IsTerminal(w.doc.phase) {
        DispatchConserves(w.doc, w.git, i);
      }
    case Crashes(i) => DispatchConserves(w.doc, w.git, i);
    case _ =>
  }

  /** Conservation of work: over every run, including failed merges, retries, crashes and cleanup,
      all commits stay in the graph and no worktree with uncommitted changes is removed; and no
      commit goes out of reach of the refs if and only if no agent leaves an old tip behind. */
  lemma {:induction false} RunsConserveWork(w: World, events: seq<Event>)
    requires WellFormed(w.git) && LegalRun(w, events)
    ensures WellFormed(AfterAll(w, events).git) && Extends(w.git.commits, AfterAll(w, events).git.commits)
    ensures NeverDropsDirty(w, events)
    ensures NeverLoses(w, events) <==> TipsKept(w, events)
    ensures TipsKept(w, events) ==> RefsKept(w.git, AfterAll(w, events).git)
    decreases events
  {
    if events != [] {
      EventConserves(w, events[0]);
      RunsConserveWork(After(w, events[0]), events[1..]);
    }
  }

  // -------------------------------------------------------- failed startups

  /** Any number of failed startups leaves the interrupted phase, and everything but the error
      record and the checkpoints, as it was. */
  lemma {:induction false} StartupFailuresKeepPhase(w: World, events: seq<Event>)
    requires Sane(w) && LegalRun(w, events) && forall k :: 0 <= k < |events| ==> events[k].StartupFails?
    requires !IsTerminal(w.doc.phase)
    ensures var d := AfterAll(w, events).doc;
      EffectivePhase(d) == EffectivePhase(w.doc) && d.body == w.doc.body && d.operationalRetries == w.doc.operationalRetries
      && !IsTerminal(d.phase)
    decreases events
  {
    if events != [] {
      StepStaysSane(w, events[0]);
      OneStartupFailureKeepsPhase(w, events[0].message, events[0].save);
      StartupFailuresKeepPhase(After(w, events[0]), events[1..]);
    }
  }

  lemma OneStartupFailureKeepsPhase(w: World, message: string, save: SaveChoice)
    requires Sane(w) && Legal(w, StartupFails(message, save))
    ensures var d := After(w, StartupFails(message, save)).doc;
      EffectivePhase(d) == EffectivePhase(w.doc) && d.body == w.doc.body && d.operationalRetries == w.doc.operationalRetries
      && !IsTerminal(d.phase)
  {
    FailureWrites(w.doc, w.git, Fault(ServerStartupKind, Reported(message)), EffectivePhase(w.doc), w.doc.phase, save);
  }
}
