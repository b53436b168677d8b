/** The loop of `run()`: its measure, where it leads, and what it keeps on the way. */
module RunLoop {
  import opened Text
  import opened Document
  import opened Repository
  import opened Transitions
  import opened RepositoryFacts
  import opened Conservation
  import opened Termination
  import opened Carrying

  /** What the environment does in a step, given the operator's answer. */
  type Environment = (nat, Doc, Git, Option<string>) -> StepInput

  /** Every configured command is run, and the operator's answer is passed on. */
  ghost predicate Answers(env: Environment) {
    forall n, d, g, a :: |env(n, d, g, a).runs| == |d.body.options.verifyCommands| && env(n, d, g, a).answer == a
  }

  /** From step `bound` on, the end of the run is not lost to a failing save. */
  ghost predicate FinishesBy(env: Environment, bound: nat)
    requires Answers(env)
  {
    forall n, d, g, a :: n >= bound && HasMain(g) ==> !FinishIsLost(d, g, env(n, d, g, a))
  }

  /** The measure of a run: its key (the plan with its stage, the work with the phase's rank), the
      steps until its end can be saved, and its retries with the flag. */
  datatype Measure = Measure(tasks: int, plan: int, work: int, wait: nat, tries: int)

  function MeasureOf(d: Doc, steps: nat, bound: nat): Measure {
    var key := CurrentKey(d);
    Measure(key.tasks, 2 * key.replans + key.stage, 11 * key.revisions + key.rank,
            if steps < bound then bound - steps else 0, 2 * RetriesLeft(d) + FailureFlag(d))
  }

  predicate Falls(m: Measure, n: Measure) {
    || m.tasks < n.tasks
    || (m.tasks == n.tasks && (m.plan < n.plan
    || (m.plan == n.plan && (m.work < n.work
    || (m.work == n.work && (m.wait < n.wait
    || (m.wait == n.wait && m.tries < n.tries)))))))
  }

  predicate NotNegative(m: Measure) {
    m.tasks >= 0 && m.plan >= 0 && m.work >= 0 && m.tries >= 0
  }

  lemma LowerFalls(d: Doc, e: Doc, n: nat, bound: nat)
    requires LowerThan(e, d) || (CurrentKey(e) == CurrentKey(d) && n < bound)
    ensures Falls(MeasureOf(e, n + 1, bound), MeasureOf(d, n, bound))
  {
  }

  lemma StepFalls(env: Environment, n: nat, d: Doc, g: Git, answer: Option<string>, bound: nat)
    requires Answers(env) && FinishesBy(env, bound) && HasMain(g) && Running(d)
    requires answer.Some? ==> d.phase.AwaitingInput?
    requires Iterate(d, g, env(n, d, g, answer)).GoesOn?
    ensures var e := Iterate(d, g, env(n, d, g, answer)).doc;
      IsTerminal(e.phase) || (Running(e) && (answer.Some? || Falls(MeasureOf(e, n + 1, bound), MeasureOf(d, n, bound))))
  {
    var e := Iterate(d, g, env(n, d, g, answer)).doc;
    IterationDescends(d, g, env(n, d, g, answer));
    if LowerThan(e, d) || (CurrentKey(e) == CurrentKey(d) && n < bound) {
      LowerFalls(d, e, n, bound);
    }
  }

  lemma RunningMeasures(d: Doc, steps: nat, bound: nat)
    requires Running(d)
    ensures NotNegative(MeasureOf(d, steps, bound))
  {
  }

  // ---------------------------------------------------------- the whole loop

  /** A run between two iterations: the answers not yet given and the steps taken. */
  datatype Moment = Moment(doc: Doc, git: Git, left: seq<string>, steps: nat)

  function AnswerAt(s: Moment): Option<string> {
    if s.doc.phase.AwaitingInput? && s.left != [] then Some(s.left[0]) else None
  }

  function Onward(s: Moment, doc: Doc, git: Git): Moment {
    Moment(doc, git, if AnswerAt(s).Some? then s.left[1..] else s.left, s.steps + 1)
  }

  /** The run comes to this end after so many iterations that go on. */
  predicate Leads(turn: Moment -> Iteration, s: Moment, maxSteps: Option<nat>, end: Iteration, turns: nat)
    decreases turns
  {
    if IsTerminal(s.doc.phase) then turns == 0 && end == Stops(s.doc, s.git, Finished)
    else if maxSteps.Some? && s.steps >= maxSteps.value then turns == 0 && end == Stops(s.doc, s.git, Paused)
    else
      match turn(s)
      case Stops(_, _, _) => turns == 0 && end == turn(s)
      case GoesOn(doc, git) => turns > 0 && Leads(turn, Onward(s, doc, git), maxSteps, end, turns - 1)
  }

  /** What the environment does decides how the run ends, and when. */
  lemma {:induction false} EndIsUnique(turn: Moment -> Iteration, s: Moment, maxSteps: Option<nat>,
                                       a: Iteration, m: nat, b: Iteration, n: nat)
    requires Leads(turn, s, maxSteps, a, m) && Leads(turn, s, maxSteps, b, n)
    ensures a == b && m == n
    decreases m
  {
    if m > 0 {
      var next := turn(s);
      EndIsUnique(turn, Onward(s, next.doc, next.git), maxSteps, a, m - 1, b, n - 1);
    }
  }

  /** Wherever the run leads from a later moment, it leads from the first. */
  ghost predicate Passes(turn: Moment -> Iteration, first: Moment, now: Moment, maxSteps: Option<nat>) {
    forall end, turns: nat :: Leads(turn, now, maxSteps, end, turns) ==> Leads(turn, first, maxSteps, end, turns + now.steps)
  }

  lemma PassesOn(turn: Moment -> Iteration, first: Moment, now: Moment, next: Moment, maxSteps: Option<nat>)
    requires Passes(turn, first, now, maxSteps) && !IsTerminal(now.doc.phase)
    requires maxSteps.Some? ==> now.steps < maxSteps.value
    requires turn(now) == GoesOn(next.doc, next.git) && next == Onward(now, next.doc, next.git)
    ensures Passes(turn, first, next, maxSteps)
  {
    forall end, turns: nat | Leads(turn, next, maxSteps, end, turns)
      ensures Leads(turn, first, maxSteps, end, turns + next.steps)
    {
      assert Leads(turn, now, maxSteps, end, turns + 1);
    }
  }

  /** The iteration at a moment, given what the environment does. */
  function IterationAt(env: Environment, s: Moment): Iteration
    requires HasMain(s.git) && |env(s.steps, s.doc, s.git, AnswerAt(s)).runs| == |s.doc.body.options.verifyCommands|
  {
    Iterate(s.doc, s.git, env(s.steps, s.doc, s.git, AnswerAt(s)))
  }

  ghost predicate IteratesAs(env: Environment, turn: Moment -> Iteration)
    requires Answers(env)
  {
    forall s: Moment {:trigger IterationAt(env, s)} :: HasMain(s.git) ==> turn(s) == IterationAt(env, s)
  }

  // ------------------------------------------------------- what the loop keeps

  /** The environment only does what Git and the contracts allow. */
  ghost predicate Behaves(env: Environment) {
    forall n, d: Doc, g, a :: InputFits(d.body, g, env(n, d, g, a))
  }

  /** No agent leaves the old tip of its branch behind. */
  ghost predicate KeepsTips(env: Environment) {
    forall n, d: Doc, g, a ::
      WellFormed(g) ==> TipKept(d.body.task, g, WorktreeEdit(d.body.task, g, env(n, d, g, a).edit))
  }

  /** What an iteration leaves: a document to go on from, unless an exception got out, and a
      repository that has lost nothing, unless an agent has left a tip behind. */
  ghost predicate Sustains(g: Git, r: Iteration, tips: bool) {
    && ((r.Stops? ==> !r.ended.Crashed?) ==> CarriedDoc(r.doc, r.git))
    && WellFormed(r.git) && Extends(g.commits, r.git.commits)
    && (tips ==> RefsKept(g, r.git))
  }

  lemma KeptTipKeepsRefs(d: Doc, g: Git, i: StepInput)
    requires WellFormed(g) && InputFits(d.body, g, i) && !IsTerminal(d.phase)
    requires TipKept(d.body.task, g, WorktreeEdit(d.body.task, g, i.edit))
    ensures RefsKept(g, Dispatch(d, g, i).git)
  {
    if RunsNoAgent(d.phase) {
      SupervisorConserves(d, g, i);
    } else {
      AgentOnlyEdits(d, g, i);
      EditConservesExactly(d.body.task, g, i.edit);
      NothingConserves(g);
    }
  }

  /** A step that returned has written what it holds. */
  lemma ReturnedIsWritten(d: Doc, x: Dispatched, i: StepInput)
    requires HasMain(x.git) && Concluded(d, x, i).result.Returned?
    ensures Concluded(d, x, i).disk == Some(Concluded(d, x, i).mem) && Concluded(d, x, i).git == x.git
  {
  }

  lemma AfterStepSustains(d: Doc, g: Git, result: Result, retrySave: SaveChoice)
    requires HasMain(g) && (result.Returned? ==> CarriedDoc(d, g))
    ensures var r := AfterStep(d, g, result, retrySave);
      r.git == g && ((r.Stops? ==> !r.ended.Crashed?) ==> CarriedDoc(r.doc, g))
  {
    if result.Returned? && result.status.OperationalFailureStatus? && MayRetry(d) && CountRetry(d, g, retrySave).GoesOn? {
      CountedRetryCarries(d, g, retrySave);
    }
  }

  lemma IterationSustains(d: Doc, g: Git, i: StepInput, tips: bool)
    requires CarriedDoc(d, g) && InputFits(d.body, g, i) && !IsTerminal(d.phase)
    requires tips ==> TipKept(d.body.task, g, WorktreeEdit(d.body.task, g, i.edit))
    ensures Sustains(g, Iterate(d, g, i), tips)
  {
    var x := Dispatch(d, g, i);
    DispatchConserves(d, g, i);
    if tips {
      KeptTipKeepsRefs(d, g, i);
    }
    var s := Concluded(d, x, i);
    if s.result.Returned? {
      ReturnedIsWritten(d, x, i);
      AdvanceCarries(d, g, i);
    }
    AfterStepSustains(s.mem, x.git, s.result, i.retrySave);
  }

  lemma SustainedOn(g: Git, h: Git, r: Iteration, tips: bool)
    requires WellFormed(g) && Extends(g.commits, h.commits) && (tips ==> RefsKept(g, h)) && Sustains(h, r, tips)
    ensures Sustains(g, r, tips)
  {
  }

  ghost predicate EveryTurnSustains(turn: Moment -> Iteration, tips: bool) {
    forall s: Moment :: CarriedDoc(s.doc, s.git) && !IsTerminal(s.doc.phase) ==> Sustains(s.git, turn(s), tips)
  }

  lemma TurnsSustain(env: Environment, turn: Moment -> Iteration, tips: bool)
    requires Answers(env) && IteratesAs(env, turn) && Behaves(env) && (tips ==> KeepsTips(env))
    ensures EveryTurnSustains(turn, tips)
  {
    forall s: Moment | CarriedDoc(s.doc, s.git) && !IsTerminal(s.doc.phase)
      ensures Sustains(s.git, turn(s), tips)
    {
      assert turn(s) == IterationAt(env, s);
      IterationSustains(s.doc, s.git, env(s.steps, s.doc, s.git, AnswerAt(s)), tips);
    }
  }

  lemma StillSustains(g: Git, ended: Ended, d: Doc)
    requires CarriedDoc(d, g)
    ensures Sustains(g, Stops(d, g, ended), true)
  {
  }

  /** Wherever the loop ends, it has kept the limits and lost nothing. */
  lemma {:induction false} EndSustains(turn: Moment -> Iteration, s: Moment, maxSteps: Option<nat>,
                                       end: Iteration, turns: nat, tips: bool)
    requires EveryTurnSustains(turn, tips)
    requires Leads(turn, s, maxSteps, end, turns) && CarriedDoc(s.doc, s.git)
    ensures Sustains(s.git, end, tips)
    decreases turns
  {
    if IsTerminal(s.doc.phase) {
      StillSustains(s.git, Finished, s.doc);
    } else if maxSteps.Some? && s.steps >= maxSteps.value {
      StillSustains(s.git, Paused, s.doc);
    } else if turns > 0 {
      var r := turn(s);
      EndSustains(turn, Onward(s, r.doc, r.git), maxSteps, end, turns - 1, tips);
      SustainedOn(s.git, r.git, end, tips);
    }
  }

  lemma LoopSustains(env: Environment, turn: Moment -> Iteration, s: Moment, maxSteps: Option<nat>, end: Iteration, turns: nat)
    requires Answers(env) && IteratesAs(env, turn) && Behaves(env)
    requires Leads(turn, s, maxSteps, end, turns) && CarriedDoc(s.doc, s.git)
    ensures Sustains(s.git, end, false) && (KeepsTips(env) ==> Sustains(s.git, end, true))
  {
    TurnsSustain(env, turn, false);
    EndSustains(turn, s, maxSteps, end, turns, false);
    if KeepsTips(env) {
      TurnsSustain(env, turn, true);
      EndSustains(turn, s, maxSteps, end, turns, true);
    }
  }
}
