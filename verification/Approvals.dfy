/** The operator's approval over whole runs: where it is required, no ADR is written without a yes to
    the question that showed it. */
module Approvals {
  import opened Text
  import opened Document
  import opened Repository
  import opened Transitions
  import opened Closure
  import opened Conservation
  import opened Termination
  import opened Carrying
  import opened Runs
  import Outcomes

  /** What the operator last answered to a question of approval, whichever way. */
  datatype Answer = Answer(question: PendingQuestion, text: string)

  function Heard(d: Doc, i: StepInput, last: Option<Answer>): Option<Answer> {
    if d.phase.AwaitingInput? && Outcomes.Asked(d, i, DecisionApproval) then Some(Answer(d.body.question.value, i.answer.value))
    else last
  }

  predicate HasAdr(b: Body) {
    b.results.architect.Some? && b.results.architect.value.adr.Some?
  }

  /** The question shows the very ADR at hand. */
  predicate Shows(q: PendingQuestion, b: Body) {
    && HasAdr(b) && q.kind.DecisionApproval?
    && q.context == AboutAdr(b.results.architect.value.adr.value.title, b.results.architect.value.adr.value.decision)
  }

  /** A question of approval shows the ADR at hand, and one that is being recorded was approved. */
  predicate Consented(b: Body, p: Phase, last: Option<Answer>) {
    && (p.AwaitingInput? && b.question.Some? && b.question.value.kind.DecisionApproval? ==> Shows(b.question.value, b))
    && (p.RecordingDecision? && b.options.requireApproval ==>
          last.Some? && Shows(last.value.question, b) && Outcomes.SaysYes(last.value.text))
  }

  // ------------------------------------------------------------ every phase

  lemma PlanningAsksNothing(b: Body, g: Git, i: StepInput)
    requires HasMain(g)
    ensures var p := DoPlanning(b, g, i).phase; !p.AwaitingInput? && !p.RecordingDecision?
  {
  }

  lemma CreatingAsksNothing(b: Body, g: Git, i: StepInput)
    requires HasMain(g)
    ensures var p := DoCreatingWorktree(b, g, i).phase; !p.AwaitingInput? && !p.RecordingDecision?
  {
  }

  /** Architecting asks about its own ADR, and records by itself only where approval is not required. */
  lemma ArchitectingAsks(b: Body, g: Git, i: StepInput, last: Option<Answer>)
    requires HasMain(g)
    ensures var x := DoArchitecting(b, g, i); Consented(x.body, x.phase, last)
  {
  }

  lemma RecordingKeepsConsent(b: Body, g: Git, i: StepInput, last: Option<Answer>)
    requires HasMain(g) && Consented(b, RecordingDecision, last)
    ensures var x := DoRecordingDecision(b, g, i); Consented(x.body, x.phase, last)
  {
  }

  lemma BuildingAsksElse(b: Body, g: Git, i: StepInput, last: Option<Answer>)
    requires HasMain(g)
    ensures var x := DoBuilding(b, g, i); Consented(x.body, x.phase, last)
  {
  }

  lemma LaterAsksNothing(d: Doc, g: Git, i: StepInput)
    requires HasMain(g) && |i.runs| == |d.body.options.verifyCommands|
    requires d.phase.Verifying? || d.phase.Auditing? || d.phase.Merging? || d.phase.CleanupWorktree? || d.phase.CleanupBranch?
    ensures var p := Dispatch(d, g, i).phase; !p.AwaitingInput? && !p.RecordingDecision?
  {
  }

  /** An answer of yes leads to recording the ADR that was shown. */
  lemma AnswerIsConsent(d: Doc, g: Git, i: StepInput, last: Option<Answer>)
    requires HasMain(g) && |i.runs| == |d.body.options.verifyCommands| && d.phase.AwaitingInput?
    requires Consented(d.body, AwaitingInput, last)
    ensures var x := Dispatch(d, g, i);
      Consented(x.body, x.phase, Heard(d, i, last)) && (x.raise.Operational? ==> Consented(x.body, AwaitingInput, Heard(d, i, last)))
  {
  }

  lemma DispatchKeepsConsent(d: Doc, g: Git, i: StepInput, last: Option<Answer>)
    requires CarriedDoc(d, g) && InputFits(d.body, g, i) && !IsTerminal(d.phase)
    requires Consented(d.body, EffectivePhase(d), last)
    ensures var x := Dispatch(d, g, i);
      forall p :: p in Resumes(d, x) ==> Consented(x.body, p, Heard(d, i, last))
  {
    DispatchGoes(d, g, i);
    match d.phase
    case Planning => PlanningAsksNothing(d.body, g, i);
    case CreatingWorktree => CreatingAsksNothing(d.body, g, i);
    case Architecting => ArchitectingAsks(d.body, g, i, last);
    case RecordingDecision => RecordingKeepsConsent(d.body, g, i, last);
    case Building => BuildingAsksElse(d.body, g, i, last);
    case AwaitingInput => AnswerIsConsent(d, g, i, last);
    case OperationalFailure =>
    case _ => LaterAsksNothing(d, g, i);
  }

  // ------------------------------------------------------------- where written

  /** Every decisions directory is as it was, and those of new worktrees are empty. */
  predicate SameAdrs(g: Git, h: Git) {
    forall t :: t in h.trees ==> h.trees[t].adrs == if t in g.trees then g.trees[t].adrs else map[]
  }

  predicate Writes(b: Body, before: Worktree, after: Worktree, t: string) {
    && HasAdr(b) && b.intents.adrPath.Some? && b.task.path == Some(t)
    && b.intents.adrPath.value.name !in before.adrs
    && after.adrs == before.adrs[b.intents.adrPath.value.name := Rendered(b.results.architect.value.adr.value)]
  }

  lemma CreatingWritesNone(b: Body, g: Git, i: StepInput)
    requires HasMain(g)
    ensures SameAdrs(g, DoCreatingWorktree(b, g, i).git)
  {
  }

  lemma MergingWritesNone(b: Body, g: Git, i: StepInput)
    requires HasMain(g)
    ensures DoMerging(b, g, i).git.trees == g.trees
  {
  }

  lemma CleanupWritesNone(b: Body, g: Git, i: StepInput)
    requires HasMain(g)
    ensures SameAdrs(g, DoCleanupWorktree(b, g, i).git) && SameAdrs(g, DoCleanupBranch(b, g, i).git)
  {
  }

  lemma RecordingWritesOne(b: Body, g: Git, i: StepInput, t: string)
    requires HasMain(g) && TaskWhole(b.task) && !NoTask(b.task) && t in DoRecordingDecision(b, g, i).git.trees
    ensures var h := DoRecordingDecision(b, g, i).git;
      t in g.trees && (h.trees[t].adrs == g.trees[t].adrs || Writes(b, g.trees[t], h.trees[t], t))
  {
  }

  /** Only recording a decision changes a decisions directory: by the ADR at hand, in its own task's
      worktree. A new worktree starts without any. */
  lemma OnlyRecordingWrites(d: Doc, g: Git, i: StepInput, t: string)
    requires CarriedDoc(d, g) && InputFits(d.body, g, i) && !IsTerminal(d.phase) && t in Dispatch(d, g, i).git.trees
    ensures var h := Dispatch(d, g, i).git;
      if t !in g.trees then h.trees[t].adrs == map[]
      else h.trees[t].adrs == g.trees[t].adrs || (d.phase.RecordingDecision? && Writes(d.body, g.trees[t], h.trees[t], t))
  {
    match d.phase
    case CreatingWorktree => CreatingWritesNone(d.body, g, i);
    case RecordingDecision => RecordingWritesOne(d.body, g, i, t);
    case Merging => MergingWritesNone(d.body, g, i);
    case CleanupWorktree => CleanupWritesNone(d.body, g, i);
    case CleanupBranch => CleanupWritesNone(d.body, g, i);
    case AwaitingInput =>
    case OperationalFailure =>
    case _ => AgentOnlyEdits(d, g, i);
  }

  // ------------------------------------------------------------ whole runs

  /** The answer last given in a run. */
  function LastAnswer(w: World, events: seq<Event>, last: Option<Answer>): Option<Answer>
    requires LegalRun(w, events)
    decreases events
  {
    if events == [] then last
    else LastAnswer(After(w, events[0]), events[1..], AfterEvent(w, events[0], last))
  }

  function AfterEvent(w: World, e: Event, last: Option<Answer>): Option<Answer> {
    if e.Advances? then Heard(w.doc, e.i, last) else last
  }

  predicate Approved(w: World, o: Options, last: Option<Answer>) {
    w.doc.body.options == o && (!IsTerminal(w.doc.phase) ==> Consented(w.doc.body, EffectivePhase(w.doc), last))
  }

  lemma StepStaysApproved(w: World, e: Event, o: Options, last: Option<Answer>)
    requires Sane(w) && Legal(w, e) && Approved(w, o, last)
    ensures Approved(After(w, e), o, AfterEvent(w, e, last))
  {
    match e
    case Advances(i) =>
      if !IsTerminal(w.doc.phase) {
        DispatchConserves(w.doc, w.git, i);
        DispatchKeepsTask(w.doc, w.git, i);
        DispatchKeepsConsent(w.doc, w.git, i, last);
        ConclusionWrites(w.doc, Dispatch(w.doc, w.git, i), i);
      }
    case CountsRetry(save) =>
      if CountRetry(w.doc, w.git, save).GoesOn? { CountedRetryKeeps(w.doc, w.git, save); }
    case StartupFails(message, save) =>
      FailureWrites(w.doc, w.git, Fault(ServerStartupKind, Reported(message)), EffectivePhase(w.doc), w.doc.phase, save);
    case _ =>
  }

  lemma {:induction false} RunsStayApproved(w: World, events: seq<Event>, o: Options, last: Option<Answer>)
    requires Sane(w) && LegalRun(w, events) && Approved(w, o, last)
    ensures Sane(AfterAll(w, events)) && Approved(AfterAll(w, events), o, LastAnswer(w, events, last))
    decreases events
  {
    if events != [] {
      StepStaysSane(w, events[0]);
      StepStaysApproved(w, events[0], o, last);
      RunsStayApproved(After(w, events[0]), events[1..], o, AfterEvent(w, events[0], last));
    }
  }

  /** In every run that requires approval, whatever crashes and retries it has been through: an event
      that changes a decisions directory writes the ADR at hand, and the operator's last answer was a
      yes to the question that showed this ADR. */
  lemma NoAdrWithoutApproval(h: Header, o: Options, g: Git, events: seq<Event>, e: Event, t: string)
    requires WellFormed(g) && h.startCommit == MainHead(g) && o.requireApproval
    requires LegalRun(NewRun(h, o, g), events) && Legal(AfterAll(NewRun(h, o, g), events), e)
    requires var w := AfterAll(NewRun(h, o, g), events);
      t in w.git.trees && t in After(w, e).git.trees && After(w, e).git.trees[t].adrs != w.git.trees[t].adrs
    ensures var w, last := AfterAll(NewRun(h, o, g), events), LastAnswer(NewRun(h, o, g), events, None);
      && Writes(w.doc.body, w.git.trees[t], After(w, e).git.trees[t], t)
      && last.Some? && Shows(last.value.question, w.doc.body) && Outcomes.Word(last.value.text) in ["y", "yes", "approve"]
  {
    var w := AfterAll(NewRun(h, o, g), events);
    NewRunIsSane(h, o, g);
    RunsStayApproved(NewRun(h, o, g), events, o, None);
    OnlyRecordingWrites(w.doc, w.git, e.i, t);
  }
}
