/** The counters a run keeps, and the transitions that reset them: the table the history checker
    goes by lists exactly those on which the supervisor lowers a counter. */
module ResetTable {
  import opened Text
  import opened Contracts
  import opened Document
  import opened Repository
  import opened Decisions
  import opened Transitions
  import opened Invariant
  import opened Carrying
  import opened Witnesses
  import Outcomes

  datatype Field = AcceptedCount | RevisionCount | ReplanCount | ArchitectRetryCount | GuidanceCount | OperationalRetryCount

  function CounterOf(c: Counters, retries: int, f: Field): int {
    match f
    case AcceptedCount => c.accepted
    case RevisionCount => c.revisions
    case ReplanCount => c.replans
    case ArchitectRetryCount => c.architectRetries
    case GuidanceCount => c.guidance
    case OperationalRetryCount => retries
  }

  /** `_RESET_TRANSITIONS_BY_COUNTER`. */
  predicate InResetTable(f: Field, before: Phase, after: Phase) {
    match f
    case RevisionCount =>
      ((before.Planning? || before.CreatingWorktree?) && (after.Building? || after.Architecting?))
      || (before.CleanupBranch? && after.Planning?)
    case ReplanCount => before.CleanupBranch? && after.Planning?
    case ArchitectRetryCount =>
      (before.RecordingDecision? && (after.Building? || after.Planning?)) || (before.CleanupBranch? && after.Planning?)
    case GuidanceCount =>
      ((before.Planning? || before.CreatingWorktree?) && (after.Building? || after.Architecting?))
      || (before.Building? && (after.Verifying? || after.Auditing?))
      || (before.CleanupBranch? && after.Planning?)
    case _ => false
  }

  // -------------------------------------------------- counters in one phase

  /** A counter does not go down in a dispatch, or is reset to 0 on a transition of the table. */
  predicate FieldMoves(b: Body, p: Phase, x: Dispatched, f: Field) {
    || CounterOf(x.body.counters, 0, f) >= CounterOf(b.counters, 0, f)
    || (x.raise.NoRaise? && CounterOf(x.body.counters, 0, f) == 0 && InResetTable(f, p, x.phase))
  }

  predicate CountersMove(b: Body, p: Phase, x: Dispatched) {
    forall f: Field :: FieldMoves(b, p, x, f)
  }

  lemma PlanningMoves(b: Body, g: Git, i: StepInput)
    requires HasMain(g)
    ensures CountersMove(b, Planning, DoPlanning(b, g, i))
  {
  }

  lemma CreatingMoves(b: Body, g: Git, i: StepInput)
    requires HasMain(g)
    ensures CountersMove(b, CreatingWorktree, DoCreatingWorktree(b, g, i))
  {
  }

  lemma ArchitectingMoves(b: Body, g: Git, i: StepInput)
    requires HasMain(g)
    ensures CountersMove(b, Architecting, DoArchitecting(b, g, i))
  {
  }

  lemma RecordingMoves(b: Body, g: Git, i: StepInput)
    requires HasMain(g)
    ensures CountersMove(b, RecordingDecision, DoRecordingDecision(b, g, i))
  {
  }

  lemma BuildingMoves(b: Body, g: Git, i: StepInput)
    requires HasMain(g)
    ensures CountersMove(b, Building, DoBuilding(b, g, i))
  {
  }

  lemma AuditingMoves(b: Body, g: Git, i: StepInput)
    requires HasMain(g)
    ensures CountersMove(b, Auditing, DoAuditing(b, g, i))
  {
  }

  lemma CleanupBranchMoves(b: Body, g: Git, i: StepInput)
    requires HasMain(g) && PlanComplete(b.results)
    ensures CountersMove(b, CleanupBranch, DoCleanupBranch(b, g, i))
  {
  }

  lemma ResolvingMoves(b: Body, g: Git, answer: string, i: StepInput)
    ensures CountersMove(b, AwaitingInput, ResolveInput(b, g, answer, i))
  {
  }

  /** The reset table covers every decrease. */
  lemma DispatchMoves(d: Doc, g: Git, i: StepInput)
    requires HasMain(g) && PlanKept(d.body, EffectivePhase(d)) && !IsTerminal(d.phase)
    requires |i.runs| == |d.body.options.verifyCommands|
    ensures CountersMove(d.body, d.phase, Dispatch(d, g, i))
  {
    match d.phase
    case Planning => PlanningMoves(d.body, g, i);
    case CreatingWorktree => CreatingMoves(d.body, g, i);
    case Architecting => ArchitectingMoves(d.body, g, i);
    case RecordingDecision => RecordingMoves(d.body, g, i);
    case Building => BuildingMoves(d.body, g, i);
    case Auditing => AuditingMoves(d.body, g, i);
    case CleanupBranch => CleanupBranchMoves(d.body, g, i);
    case AwaitingInput => if i.answer.Some? { ResolvingMoves(d.body, g, i.answer.value, i); }
    case _ =>
  }

  // ---------------------------------------------------- the table is exact

  /** A dispatch that goes on in phase `q` and takes counter `f` from `m` to `n`. */
  predicate TakesTo(d: Doc, g: Git, i: StepInput, q: Phase, f: Field, m: int, n: int) {
    && HasMain(g) && InputFits(d.body, g, i) && !IsTerminal(d.phase)
    && Outcomes.Goes(Dispatch(d, g, i), q)
    && CounterOf(d.body.counters, 0, f) == m && CounterOf(Dispatch(d, g, i).body.counters, 0, f) == n
  }

  /** Some dispatch of a run's document from `p` to `q` takes the counter from `m` to `n`. */
  ghost predicate Takes(p: Phase, q: Phase, f: Field, m: int, n: int) {
    exists d: Doc, g: Git, i: StepInput :: d.phase == p && CarriedDoc(d, g) && TakesTo(d, g, i, q, f, m, n)
  }

  /** The same of a document that can be read back and rests. */
  ghost predicate TakesAtRest(p: Phase, q: Phase, f: Field, m: int, n: int) {
    exists d: Doc, g: Git, i: StepInput :: d.phase == p && AtRest(d, g) && TakesTo(d, g, i, q, f, m, n)
  }

  /** A dispatch that takes a counter down is one of the table's, to 0. */
  lemma TakenIsInTable(d: Doc, g: Git, i: StepInput, q: Phase, f: Field, m: int, n: int)
    requires TakesTo(d, g, i, q, f, m, n) && n < m && PlanKept(d.body, EffectivePhase(d))
    ensures n == 0 && InResetTable(f, d.phase, q)
  {
    DispatchMoves(d, g, i);
    assert FieldMoves(d.body, d.phase, Dispatch(d, g, i), f);
  }

  /** Exactly the transitions of the table lower a counter, and they lower it to 0, whatever it was. */
  lemma TableIsExact(p: Phase, q: Phase, f: Field, m: int, n: int)
    requires n < m
    ensures Takes(p, q, f, m, n) <==> n == 0 && InResetTable(f, p, q)
  {
    if Takes(p, q, f, m, n) {
      var d: Doc, g: Git, i: StepInput :| d.phase == p && CarriedDoc(d, g) && TakesTo(d, g, i, q, f, m, n);
      TakenIsInTable(d, g, i, q, f, m, n);
    }
    if n == 0 && InResetTable(f, p, q) {
      if p.CreatingWorktree? {
        CreatingRow(q, f, m);
      } else {
        ResetsAtRest(p, q, f, m);
      }
    }
  }

  /** At rest a worktree about to be created finds nothing to reset: those rows of the table are idle. */
  lemma TableAtRest(p: Phase, q: Phase, f: Field, m: int, n: int)
    requires n < m
    ensures TakesAtRest(p, q, f, m, n) <==> n == 0 && InResetTable(f, p, q) && !p.CreatingWorktree?
  {
    if TakesAtRest(p, q, f, m, n) {
      var d: Doc, g: Git, i: StepInput :| d.phase == p && AtRest(d, g) && TakesTo(d, g, i, q, f, m, n);
      RestKeepsPlan(d, g);
      TakenIsInTable(d, g, i, q, f, m, n);
    }
    if n == 0 && InResetTable(f, p, q) && !p.CreatingWorktree? {
      ResetsAtRest(p, q, f, m);
    }
  }

  lemma RestKeepsPlan(d: Doc, g: Git)
    requires AtRest(d, g) && !IsTerminal(d.phase)
    ensures PlanKept(d.body, EffectivePhase(d))
  {
  }

  // --------------------------------------------------- a dispatch for each row

  /** A run with every counter at `m`, and the limits to match. */
  function Counting(d: Doc, m: nat): Doc {
    d.(body := d.body.(options := Options(1, m, m, m, m, 1, false, [], ["v"]), counters := Counters(0, m, m, m, m)))
  }

  function PlanFor(decides: bool): PlannerResult {
    PlannerResult(Ready, Some("k"), Some("o"), Some("r"), ["a"], decides, if decides then Some("q") else None,
                  if decides then Some("r") else None)
  }

  function Planned(decides: bool): Results {
    Results(Some(PlanFor(decides)), None, None, None, None, None, None)
  }

  /** Nothing fails, and no agent but the one at work has anything to say. */
  function Still(): StepInput {
    Quiet()
  }

  function Replanning(m: nat): Doc {
    Counting(TaskRun(Planning, Planned(false), None, None), m)
  }

  function PlansAgain(decides: bool): StepInput {
    Quiet().(planner := Replied(PlanFor(decides)))
  }

  function Creating(m: nat, decides: bool): Doc {
    var d := Counting(TaskRun(CreatingWorktree, Planned(decides), None, None), m);
    d.(body := d.body.(task := Task(None, None, None, None),
                       intents := NoIntents().(treePath := Some(WorktreePathFor(TaskRepository(), "k")),
                                               treeBranch := Some(BranchFor("k")), treeBase := Some(Hash('a')))))
  }

  lemma CreatingResets(m: nat, decides: bool)
    ensures CarriedDoc(Creating(m, decides), TaskRepository()) && InputFits(Creating(m, decides).body, TaskRepository(), Still())
    ensures var x := Dispatch(Creating(m, decides), TaskRepository(), Still());
      Outcomes.Goes(x, if decides then Architecting else Building)
      && x.body.counters == Counters(0, 0, m, m, 0)
  {
    var d, g := Creating(m, decides), TaskRepository();
    RepositoryIsWellFormed();
    OneLetterIsClean();
    assert WorktreePathFor(g, "k")[0] == 'r' && "w"[0] == 'w' && BranchFor("k")[0] == 'l' && "m"[0] == 'm' && "t"[0] == 't';
    assert Outcomes.CanStand(g, d.body.intents.treePath.value, d.body.intents.treeBranch.value, Hash('a'));
    assert OrEmpty(PlanFor(decides).taskId) == "k";
    Outcomes.CreatingOutcomes(d, g, Still());
  }

  lemma OneLetterIsClean()
    ensures Sanitize("k") == "k"
  {
    assert StripLeft("k") == "k" && StripRight("k") == "k";
    assert "k"[1..] == "";
    assert DashRuns("k", false) == "k" + DashRuns("", false) == "k";
  }

  lemma ReplanningResets(m: nat, decides: bool)
    ensures AtRest(Replanning(m), TaskRepository()) && CarriedDoc(Replanning(m), TaskRepository())
    ensures InputFits(Replanning(m).body, TaskRepository(), PlansAgain(decides))
    ensures var x := Dispatch(Replanning(m), TaskRepository(), PlansAgain(decides));
      Outcomes.Goes(x, if decides then Architecting else Building) && x.body.counters == Counters(0, 0, m, m, 0)
  {
    RepositoryIsWellFormed();
  }

  lemma ResetsAtRest(p: Phase, q: Phase, f: Field, m: int)
    requires 0 < m && InResetTable(f, p, q) && !p.CreatingWorktree?
    ensures Takes(p, q, f, m, 0) && TakesAtRest(p, q, f, m, 0)
  {
    if p.Planning? {
      PlanningRow(q, f, m);
    } else if p.Building? {
      BuildingRow(q, f, m);
    } else if p.RecordingDecision? {
      RecordingRow(q, f, m);
    } else {
      CleanupRow(f, m);
    }
  }

  lemma Taken(d: Doc, g: Git, i: StepInput, q: Phase, f: Field, m: int)
    requires TakesTo(d, g, i, q, f, m, 0) && CarriedDoc(d, g)
    ensures Takes(d.phase, q, f, m, 0) && (AtRest(d, g) ==> TakesAtRest(d.phase, q, f, m, 0))
  {
  }

  lemma CreatingRow(q: Phase, f: Field, m: nat)
    requires InResetTable(f, CreatingWorktree, q)
    ensures Takes(CreatingWorktree, q, f, m, 0)
  {
    CreatingResets(m, q.Architecting?);
    Taken(Creating(m, q.Architecting?), TaskRepository(), Still(), q, f, m);
  }

  lemma PlanningRow(q: Phase, f: Field, m: nat)
    requires InResetTable(f, Planning, q)
    ensures Takes(Planning, q, f, m, 0) && TakesAtRest(Planning, q, f, m, 0)
  {
    ReplanningResets(m, q.Architecting?);
    Taken(Replanning(m), TaskRepository(), PlansAgain(q.Architecting?), q, f, m);
  }

  lemma BuildingRow(q: Phase, f: Field, m: nat)
    requires InResetTable(f, Building, q)
    ensures Takes(Building, q, f, m, 0) && TakesAtRest(Building, q, f, m, 0)
  {
    RebuildingRests(m, q.Verifying?);
    BuildingResets(m, q.Verifying?);
    Taken(Rebuilding(m, q.Verifying?), TaskRepository(), Rebuilt(q.Verifying?), q, f, m);
  }

  lemma RecordingRow(q: Phase, f: Field, m: nat)
    requires InResetTable(f, RecordingDecision, q)
    ensures Takes(RecordingDecision, q, f, m, 0) && TakesAtRest(RecordingDecision, q, f, m, 0)
  {
    var name := AdrName(1, "t");
    NumberOfAdrName(1, "t");
    RecordingRests(m, q.Building?, name);
    RecordingResets(m, q.Building?, name);
    Taken(Recording(m, q.Building?, name), TaskRepository(), Still(), q, f, m);
  }

  lemma CleanupRow(f: Field, m: nat)
    requires InResetTable(f, CleanupBranch, Planning)
    ensures Takes(CleanupBranch, Planning, f, m, 0) && TakesAtRest(CleanupBranch, Planning, f, m, 0)
  {
    ClosingRests(m);
    ClosingResets(m);
    Taken(Closing(m), ClosedRepository(), Still(), Planning, f, m);
  }

  function Rebuilding(m: nat, verifies: bool): Doc {
    var d := Counting(TaskRun(Building, Planned(false), None, None), m);
    d.(body := d.body.(options := d.body.options.(verifyCommands := if verifies then ["v"] else [])))
  }

  function Rebuilt(verifies: bool): StepInput {
    Quiet().(builder := Replied(BuilderResult("k", "o", BuilderStatus.Complete, Some(Hash('b')))),
             runs := if verifies then [CommandRun(Some(0), false)] else [])
  }

  lemma RebuildingRests(m: nat, verifies: bool)
    ensures AtRest(Rebuilding(m, verifies), TaskRepository()) && CarriedDoc(Rebuilding(m, verifies), TaskRepository())
    ensures InputFits(Rebuilding(m, verifies).body, TaskRepository(), Rebuilt(verifies))
  {
    RepositoryIsWellFormed();
  }

  lemma BuildingResets(m: nat, verifies: bool)
    ensures var x := DoBuilding(Rebuilding(m, verifies).body, TaskRepository(), Rebuilt(verifies));
      Outcomes.Goes(x, if verifies then Verifying else Auditing) && x.body.counters == Counters(0, m, m, m, 0)
  {
    SameText();
    HeadVerifies();
    Outcomes.VerifiedExactly(TaskRepository(), "w", "t", Hash('a'), Hash('b'), Hash('b'));
    NothingIsEdited();
  }

  lemma NothingIsEdited()
    ensures ApplyEdit(TaskRepository(), "w", Edit([], None, [])) == TaskRepository()
  {
    var g := TaskRepository();
    assert g.branches["t" := Hash('b')] == g.branches && g.trees["w" := g.trees["w"].(status := [])] == g.trees;
  }

  lemma HeadVerifies()
    ensures Outcomes.Verifiable(TaskRepository(), "w", "t", Hash('a'), Hash('b'), Hash('b'))
  {
    RepositoryIsWellFormed();
    HashesDiffer('b', 'b');
    HashesDiffer('b', 'a');
    assert TaskRepository().commits[Hash('a')].parents == [];
  }

  /** The ADR the architect proposes, and the file it is bound for. */
  function SomeAdr(): Adr {
    Adr("t", "c", "d", [])
  }

  function Recording(m: nat, planners: bool, name: string): Doc {
    var verdict := AuditorResult("k", "o", Replan, [], true, Some("q"), Some("r"));
    var origin := if planners then FromPlanner else FromAuditor;
    var d := Counting(TaskRun(RecordingDecision,
                              Results(Some(PlanFor(true)), Some(ArchitectResult(Decided, "q", "r", Some(SomeAdr()), None)), None, None,
                                      if planners then None else Some(verdict), Some(DecisionRequest(origin, "q", "r")), None),
                              None, None), m);
    d.(body := d.body.(intents := NoIntents().(adrPath := Some(AdrPath("w", name)),
                                               adrHash := Some(Rendered(SomeAdr())))))
  }

  lemma RecordingRests(m: nat, planners: bool, name: string)
    requires IsAdrName(name)
    ensures AtRest(Recording(m, planners, name), TaskRepository()) && CarriedDoc(Recording(m, planners, name), TaskRepository())
    ensures InputFits(Recording(m, planners, name).body, TaskRepository(), Still())
  {
    RepositoryIsWellFormed();
  }

  lemma RecordingResets(m: nat, planners: bool, name: string)
    requires IsAdrName(name)
    ensures var x := DoRecordingDecision(Recording(m, planners, name).body, TaskRepository(), Still());
      Outcomes.Goes(x, if planners then Building else Planning) && x.body.counters == Counters(0, m, m, 0, m)
  {
  }

  /** A repository whose only task has been merged, and its branch is gone. */
  function ClosedRepository(): Git {
    Git("r", "c", map[Hash('a') := Commit([], 0), Hash('b') := Commit([Hash('a')], 1), Hash('c') := Commit([Hash('a'), Hash('b')], 2)],
        map["m" := Hash('c')], "m", [], map[], {})
  }

  function Closing(m: nat): Doc {
    var built := BuilderResult("k", "o", BuilderStatus.Complete, Some(Hash('b')));
    var verdict := AuditorResult("k", "o", Accept, [], false, None, None);
    var checked := VerificationResult(true, [CommandRecord("v", true, Some(0), false, 1)]);
    var d := Counting(TaskRun(CleanupBranch, Results(Some(PlanFor(false)), None, Some(built), Some(checked), Some(verdict), None, None),
                              None, Some(Hash('b'))), m);
    d.(body := d.body.(intents := NoIntents().(mergePre := Some(Hash('a')), mergeTask := Some(Hash('b')), mergeCommit := Some(Hash('c')))))
  }

  lemma ClosedIsWellFormed()
    ensures WellFormed(ClosedRepository())
  {
    assert Hash('a')[0] == 'a' && Hash('b')[0] == 'b' && Hash('c')[0] == 'c';
  }

  lemma ClosingRests(m: nat)
    ensures AtRest(Closing(m), ClosedRepository()) && CarriedDoc(Closing(m), ClosedRepository())
    ensures InputFits(Closing(m).body, ClosedRepository(), Still())
  {
    ClosedIsWellFormed();
    assert Lower(Hash('b')) <= Lower(Hash('b'));
  }

  lemma ClosingResets(m: nat)
    ensures var x := DoCleanupBranch(Closing(m).body, ClosedRepository(), Still());
      Outcomes.Goes(x, Planning) && x.body.counters == Counters(1, 0, 0, 0, 0)
  {
    assert Hash('a')[0] == 'a' && Hash('b')[0] == 'b' && Hash('c')[0] == 'c';
  }
}
