/** Concrete runs in which a guard fails and the document written cannot be read back: the
    conditions of the closure theorem are needed. */
module Witnesses {
  import opened Text
  import opened Contracts
  import opened Document
  import opened Repository
  import opened Transitions
  import opened Invariant
  import opened PhaseSteps
  import opened Closure
  import opened Conservation
  import opened Merges
  import opened Reviews

  function Hash(c: char): string {
    seq(40, _ => c)
  }

  /** A repository with one task worktree, one commit ahead of the integration branch. */
  function TaskRepository(): Git {
    Git("r", "c", map[Hash('a') := Commit([], 0), Hash('b') := Commit([Hash('a')], 1)],
        map["m" := Hash('a'), "t" := Hash('b')], "m", [], map["w" := Worktree("t", [], map[])], {})
  }

  function SomeOptions(): Options {
    Options(1, 1, 1, 1, 1, 1, true, [], ["v"])
  }

  function Plan(taskId: string): PlannerResult {
    PlannerResult(Ready, Some(taskId), Some("o"), Some("r"), ["a"], true, Some("q"), Some("r"))
  }

  function NoIntents(): Intents {
    Intents(None, None, None, None, None, None, None, None)
  }

  /** A run with its task in hand, in some phase, with some results and question. */
  function TaskRun(phase: Phase, results: Results, question: Option<PendingQuestion>, head: Option<string>): Doc {
    Doc(Body(Header("i", "c", "r", "m", Hash('a')), SomeOptions(), Task(Some("k"), Some("w"), Some("t"), Some(Hash('a'))),
             results, Counters(0, 0, 0, 0, 0), question, head, NoIntents()),
        phase, None, 0, Checkpoints(Hash('a'), [], Some(Hash('b')), Some([])))
  }

  /** An environment in which nothing happens and every save works. */
  function Quiet(): StepInput {
    StepInput(AgentFailed(OtherAgentError, "e"), AgentFailed(OtherAgentError, "e"), AgentFailed(OtherAgentError, "e"),
              AgentFailed(OtherAgentError, "e"), Edit([], None, []), [CommandRun(Some(0), false)], None, None, None, None, None, 0,
              Rejected, SaveWorks, SaveWorks, SaveWorks)
  }

  lemma RepositoryIsWellFormed()
    ensures WellFormed(TaskRepository())
    ensures HeadAt(TaskRepository(), "w") == Some(Hash('b'))
    ensures Reaches(TaskRepository().commits, Hash('b'), Hash('a'))
  {
    var g := TaskRepository();
    assert Hash('a')[0] != Hash('b')[0];
    assert Hash('a') in g.commits[Hash('b')].parents;
    assert Reaches(g.commits, Hash('a'), Hash('a'));
  }

  /** A step from a state at rest whose document is written but cannot be read back. */
  predicate WritesUnreadable(d: Doc, g: Git, i: StepInput) {
    && AtRest(d, g) && InputFits(d.body, g, i) && NonEmptyMessages(i)
    && Advance(d, g, i).disk.Some? && !Loads(Advance(d, g, i).disk.value)
  }

  /** With the worktree in place and the disk working, a step that does not escape is written. */
  lemma StepIsWritten(d: Doc, x: Dispatched, i: StepInput)
    requires HasMain(x.git) && !x.raise.Escapes? && i.save.SaveWorks? && i.failureSave.SaveWorks?
    requires x.body.task.path == Some("w") && HeadAt(x.git, "w").Some?
    ensures Concluded(d, x, i).disk.Some?
  {
  }

  lemma Unreadable(d: Doc, g: Git, i: StepInput)
    requires AtRest(d, g) && InputFits(d.body, g, i) && NonEmptyMessages(i) && !PhaseGuard(d, g, i)
    requires Advance(d, g, i).disk.Some?
    ensures WritesUnreadable(d, g, i)
  {
    PersistedLoadsExactly(d, g, i);
  }

  // ---------------------------------------------------------- a renamed task

  function Revised(): Doc {
    var verdict := AuditorResult("k", "o", Revise, ["c"], false, None, None);
    TaskRun(Planning, Results(Some(Plan("k")), None, None, None, Some(verdict), None, None), None, None)
  }

  function Renaming(): StepInput {
    Quiet().(planner := Replied(Plan("j")))
  }

  lemma RevisedRests()
    ensures AtRest(Revised(), TaskRepository()) && InputFits(Revised().body, TaskRepository(), Renaming())
    ensures !PlanningGuard(Revised().body, Renaming())
  {
    RepositoryIsWellFormed();
  }

  lemma RenamingGoesOn()
    ensures var x := DoPlanning(Revised().body, TaskRepository(), Renaming());
      HasMain(x.git) && x.raise.NoRaise? && x.body.task == Revised().body.task && HeadAt(x.git, "w").Some?
  {
  }

  /** An operator's replan keeps an earlier REVISE verdict; a plan that then renames the task is
      written beside a verdict on another task. */
  lemma RenamedTaskIsRejected()
    ensures Revised().phase.Planning? && WritesUnreadable(Revised(), TaskRepository(), Renaming())
  {
    RevisedRests();
    RenamingGoesOn();
    StepIsWritten(Revised(), DoPlanning(Revised().body, TaskRepository(), Renaming()), Renaming());
    Unreadable(Revised(), TaskRepository(), Renaming());
  }

  // ---------------------------------------------------------- an untitled ADR

  function Deciding(): Doc {
    TaskRun(Architecting, Results(Some(Plan("k")), None, None, None, None, Some(DecisionRequest(FromPlanner, "q", "r")), None),
            None, None)
  }

  function Untitled(): StepInput {
    Quiet().(architect := Replied(ArchitectResult(Decided, "q", "r", Some(Adr("", "c", "d", [])), None)))
  }

  lemma DecidingRests()
    ensures AtRest(Deciding(), TaskRepository()) && InputFits(Deciding().body, TaskRepository(), Untitled())
    ensures !ArchitectingGuard(Deciding().body, Untitled())
  {
    RepositoryIsWellFormed();
  }

  lemma UntitledGoesOn()
    ensures var x := DoArchitecting(Deciding().body, TaskRepository(), Untitled());
      HasMain(x.git) && x.raise.InputRequired? && x.body.task == Deciding().body.task && HeadAt(x.git, "w").Some?
  {
  }

  /** The architect's contract allows an empty title, the approval question does not. */
  lemma UntitledDecisionIsRejected()
    ensures Deciding().phase.Architecting? && WritesUnreadable(Deciding(), TaskRepository(), Untitled())
  {
    DecidingRests();
    UntitledGoesOn();
    StepIsWritten(Deciding(), DoArchitecting(Deciding().body, TaskRepository(), Untitled()), Untitled());
    Unreadable(Deciding(), TaskRepository(), Untitled());
  }

  // ----------------------------------------------------------- a guided build

  function Guided(): Doc {
    var blocked := BuilderResult("k", "o", Blocked, None);
    TaskRun(Building, Results(Some(Plan("k")), None, Some(blocked), None, None, None, None),
            Some(PendingQuestion(BuilderGuidance, Own(GiveGuidance), AboutStatus(Blocked), Some("a"))), None)
  }

  /** The builder reports COMPLETE with a commit that is no hash. */
  function Misreporting(): StepInput {
    Quiet().(builder := Replied(BuilderResult("k", "o", BuilderStatus.Complete, Some("z"))))
  }

  lemma GuidedRests()
    ensures AtRest(Guided(), TaskRepository()) && InputFits(Guided().body, TaskRepository(), Misreporting())
  {
    RepositoryIsWellFormed();
  }

  lemma SameText()
    ensures Strip("o") == "o"
  {
    assert StripLeft("o") == "o" && StripRight("o") == "o";
  }

  lemma MisreportIsNoHash(b: Body, r: BuilderResult)
    requires b.task.path == Some("w") && b.task.branch == Some("t") && r.commit == Some("z")
    ensures !Verified(b, WorktreeEdit(b.task, TaskRepository(), Edit([], None, [])), r).Ok?
  {
    assert !IsReportedCommit("z");
  }

  lemma MisreportGoesOn()
    ensures !BuildingGuard(Guided().body, TaskRepository(), Misreporting())
    ensures var x := DoBuilding(Guided().body, TaskRepository(), Misreporting());
      HasMain(x.git) && x.raise.Operational? && x.body.task == Guided().body.task && HeadAt(x.git, "w").Some?
  {
    var r := Misreporting().builder.value;
    SameText();
    MisreportIsNoHash(Guided().body, r);
    MisreportIsNoHash(Guided().body.(results := Guided().body.results.(builder := Some(r))), r);
  }

  /** The answered guidance is kept beside the new result, which it does not fit. */
  lemma UnverifiedGuidedBuildIsRejected()
    ensures Guided().phase.Building? && WritesUnreadable(Guided(), TaskRepository(), Misreporting())
  {
    GuidedRests();
    MisreportGoesOn();
    StepIsWritten(Guided(), DoBuilding(Guided().body, TaskRepository(), Misreporting()), Misreporting());
    Unreadable(Guided(), TaskRepository(), Misreporting());
  }

  // ------------------------------------------------------------ a moved HEAD

  function Built(): Doc {
    var built := BuilderResult("k", "o", BuilderStatus.Complete, Some(Hash('b')));
    TaskRun(Verifying, Results(Some(Plan("k")), None, Some(built), None, None, None, None), None, Some(Hash('b')))
  }

  /** A verification command commits. */
  function Committing(): StepInput {
    Quiet().(edit := Edit([NewCommit(Hash('c'), [Hash('b')])], Some(Hash('c')), []))
  }

  lemma BuiltRests()
    ensures AtRest(Built(), TaskRepository())
  {
    RepositoryIsWellFormed();
    assert Lower(Hash('b')) <= Lower(Hash('b'));
  }

  lemma CommittingFits()
    ensures InputFits(Built().body, TaskRepository(), Committing()) && !VerifyingGuard(Built().body, TaskRepository(), Committing())
  {
    CommittingMoves();
  }

  lemma CommittingMoves()
    ensures EditFits(TaskRepository(), Committing().edit)
    ensures HeadAt(ApplyEdit(TaskRepository(), "w", Committing().edit), "w") == Some(Hash('c')) && Hash('c') != Hash('b')
  {
    assert Hash('c')[0] == 'c' && Hash('a')[0] == 'a' && Hash('b')[0] == 'b';
  }

  lemma CommittingGoesOn()
    ensures var x := DoVerifying(Built().body, TaskRepository(), Committing());
      HasMain(x.git) && x.raise.NoRaise? && x.body.task == Built().body.task && HeadAt(x.git, "w").Some?
  {
  }

  /** The checkpoint is other than the verified head. */
  lemma MovedHeadIsRejected()
    ensures Built().phase.Verifying? && WritesUnreadable(Built(), TaskRepository(), Committing())
  {
    BuiltRests();
    CommittingFits();
    CommittingGoesOn();
    StepIsWritten(Built(), DoVerifying(Built().body, TaskRepository(), Committing()), Committing());
    Unreadable(Built(), TaskRepository(), Committing());
  }

  // ---------------------------------------------------- an unverified merge

  function Audited(): Doc {
    var checked := VerificationResult(true, [CommandRecord("v", true, Some(0), false, 1)]);
    Built().(phase := Auditing, body := Built().body.(results := Built().body.results.(verification := Some(checked))))
  }

  /** The auditor commits on top of what was verified, and accepts. */
  function Meddling(): StepInput {
    Committing().(auditor := Replied(AuditorResult("k", "o", Accept, [], false, None, None)))
  }

  function Merging(commit: string): StepInput {
    Quiet().(merge := Merged(commit))
  }

  lemma AuditedRests()
    ensures AtRest(Audited(), TaskRepository())
  {
    RepositoryIsWellFormed();
    assert Lower(Hash('b')) <= Lower(Hash('b'));
  }

  lemma MeddlingFits()
    ensures InputFits(Audited().body, TaskRepository(), Meddling())
    ensures MovesHead(Audited().body, TaskRepository(), Meddling().edit)
  {
    CommittingMoves();
  }

  lemma MeddlingIsAccepted()
    ensures var x := DoAuditing(Audited().body, TaskRepository(), Meddling());
      && x.phase.Merging? && x.git == ApplyEdit(TaskRepository(), "w", Meddling().edit)
      && x.body.task == Audited().body.task && x.body.options == Audited().body.options
  {
    SameText();
    CommittingMoves();
  }

  /** What the meddled repository is like: `c` on `b` on `a`, and the integration branch still at `a`. */
  lemma MeddledRepository()
    ensures var h := ApplyEdit(TaskRepository(), "w", Meddling().edit);
      && WellFormed(h) && h.mainStatus == [] && MainHead(h) == Hash('a') && FreshCommit(h, Hash('d'))
      && HeadAt(h, "w") == Some(Hash('c')) && !Reaches(h.commits, Hash('a'), Hash('c'))
  {
    CommittingMoves();
    RepositoryIsWellFormed();
    EditPreserves(TaskRepository(), "w", Meddling().edit);
    var h := ApplyEdit(TaskRepository(), "w", Meddling().edit);
    assert Hash('d')[0] == 'd' && Hash('c')[0] == 'c' && Hash('a')[0] == 'a' && Hash('b')[0] == 'b';
    assert h.commits[Hash('a')].parents == [];
  }

  /** Two iterations of a live run merge a commit no builder's report was ever verified at. */
  lemma UnverifiedHeadIsMerged()
    ensures AtRest(Audited(), TaskRepository()) && Audited().body.lastTaskHead == Some(Hash('b'))
    ensures var r := Iterate(Audited(), TaskRepository(), Meddling());
      && r.GoesOn? && r.doc.phase.Merging? && |Merging(Hash('d')).runs| == |r.doc.body.options.verifyCommands|
      && var x := DoMerging(r.doc.body, r.git, Merging(Hash('d')));
      && x.raise.NoRaise? && HasMain(x.git)
      && IsMergeOfBoth(x.git.commits, MainHead(x.git), Hash('a'), Hash('c'))
  {
    AuditedRests();
    MeddlingFits();
    MeddlingIsAccepted();
    MeddledRepository();
    MovedHeadIsAccepted(Audited(), TaskRepository(), Meddling());
    AcceptKeepsTask();
    var r := Iterate(Audited(), TaskRepository(), Meddling());
    CapturedHeadIsMerged(r.doc.body, r.git, Merging(Hash('d')));
  }

  lemma AcceptKeepsTask()
    ensures var r := Iterate(Audited(), TaskRepository(), Meddling());
      r.git == ApplyEdit(TaskRepository(), "w", Meddling().edit) && r.doc.body.task == Audited().body.task
      && r.doc.body.options == Audited().body.options
  {
    MeddlingIsAccepted();
    MeddledRepository();
    var x := DoAuditing(Audited().body, TaskRepository(), Meddling());
    AcceptPreparesMerge(Audited().body, TaskRepository(), Meddling());
    AcceptCapturesLiveHead(Audited(), TaskRepository(), Meddling());
    SavedAccept(Audited(), x, Meddling());
  }

  // ------------------------------------------------------- an amended commit

  /** The builder is to revise a task it has built before. */
  function Revising(): Doc {
    Built().(phase := Building)
  }

  /** It amends its commit instead of adding one. */
  function Amending(): StepInput {
    Quiet().(edit := Edit([NewCommit(Hash('d'), [Hash('a')])], Some(Hash('d')), []),
             builder := Replied(BuilderResult("k", "o", BuilderStatus.Complete, Some(Hash('d')))))
  }

  function AmendedRepository(): Git {
    ApplyEdit(TaskRepository(), "w", Amending().edit)
  }

  lemma RevisingRests()
    ensures AtRest(Revising(), TaskRepository())
  {
    RepositoryIsWellFormed();
  }

  lemma AmendingFits()
    ensures InputFits(Revising().body, TaskRepository(), Amending())
  {
    assert Hash('d')[0] == 'd' && Hash('a')[0] == 'a' && Hash('b')[0] == 'b';
  }

  lemma AmendedCommits()
    ensures var h := AmendedRepository();
      && h.commits.Keys == {Hash('a'), Hash('b'), Hash('d')} && h.branches == map["m" := Hash('a'), "t" := Hash('d')]
      && h.commits[Hash('a')].parents == [] && h.commits[Hash('d')].parents == [Hash('a')]
      && h.trees["w"] == Worktree("t", [], map[])
      && Hash('d') != Hash('a') && Hash('d') != Hash('b') && Hash('a') != Hash('b')
  {
    assert Hash('d')[0] == 'd' && Hash('a')[0] == 'a' && Hash('b')[0] == 'b';
  }

  lemma OldTipIsLost()
    ensures !Held(AmendedRepository(), Hash('b')) && !Reaches(AmendedRepository().commits, Hash('a'), Hash('d'))
  {
    AmendedCommits();
    var cs := AmendedRepository().commits;
    assert !Reaches(cs, Hash('a'), Hash('b'));
    assert !Reaches(cs, Hash('d'), Hash('b'));
  }

  lemma HashesDiffer(x: char, y: char)
    requires 'a' <= x <= 'f' && 'a' <= y <= 'f'
    ensures CommitIdsMatch(Hash(x), Hash(y)) <==> x == y
  {
    assert Lower(Hash(x))[0] == x && Lower(Hash(y))[0] == y;
    assert x == y ==> Lower(Hash(x)) == Lower(Hash(y));
  }

  lemma ResolvesTo(cs: map<string, Commit>, candidate: string, c: string)
    requires c in cs && CommitIdsMatch(candidate, c)
    requires forall o :: o in cs && o != c ==> !CommitIdsMatch(candidate, o)
    ensures Resolve(cs, candidate) == Some(c)
  {
  }

  lemma AmendmentVerifies()
    ensures Resolve(AmendedRepository().commits, Hash('d')) == Some(Hash('d'))
  {
    AmendedCommits();
    var cs := AmendedRepository().commits;
    HashesDiffer('d', 'd');
    forall o | o in cs && o != Hash('d')
      ensures !CommitIdsMatch(Hash('d'), o)
    {
      if o == Hash('a') {
        HashesDiffer('d', 'a');
      } else {
        assert o == Hash('b');
        HashesDiffer('d', 'b');
      }
    }
    ResolvesTo(cs, Hash('d'), Hash('d'));
  }

  /** The amended commit is verified, the run goes on readably, and the commit that was reviewed
      before is out of every branch's reach. */
  lemma AmendedCommitIsLost()
    ensures AtRest(Revising(), TaskRepository()) && PhaseGuard(Revising(), TaskRepository(), Amending())
    ensures var x := Dispatch(Revising(), TaskRepository(), Amending());
      x.raise.NoRaise? && x.phase.Verifying? && Held(TaskRepository(), Hash('b')) && !Held(x.git, Hash('b'))
  {
    RevisingRests();
    AmendingFits();
    AmendedCommits();
    OldTipIsLost();
    AmendmentVerifies();
    SameText();
    RepositoryIsWellFormed();
    assert TaskRepository().branches["t"] == Hash('b') && Reaches(TaskRepository().commits, Hash('b'), Hash('b'));
    AmendingGoesOn();
  }

  lemma AmendingGoesOn()
    requires Resolve(AmendedRepository().commits, Hash('d')) == Some(Hash('d'))
    requires !Reaches(AmendedRepository().commits, Hash('a'), Hash('d'))
    ensures var x := DoBuilding(Revising().body, TaskRepository(), Amending());
      x.raise.NoRaise? && x.phase.Verifying? && x.git == AmendedRepository()
  {
    AmendedCommits();
    SameText();
    assert IsReportedCommit(Hash('d'));
  }
}
