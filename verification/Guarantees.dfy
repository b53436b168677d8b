/** What can be relied on of a document that could be read, said of its fields one by one. */
module Guarantees {
  import opened Text
  import opened Document

  predicate Says(s: Option<string>) {
    s.Some? && s.value != ""
  }

  /** Whatever is read has a complete header, counts from 0 up, and a task with all its parts and
      checkpoints or none of either. */
  lemma HeaderIsRead(d: Doc)
    requires Loads(d)
    ensures var h, c, o := d.body.header, d.body.counters, d.body.options;
      && "" !in {h.runId, h.commonDir, h.integrationPath, h.integrationBranch, h.startCommit, d.checkpoints.mainHead}
      && c.accepted >= 0 && c.revisions >= 0 && c.replans >= 0 && c.architectRetries >= 0 && c.guidance >= 0 && d.operationalRetries >= 0
      && "" !in o.verifyCommands && "" !in o.provisionCommands
    ensures var t, c := d.body.task, d.checkpoints;
      if t.id.None? then t.path.None? && t.branch.None? && t.base.None? && c.taskHead.None? && c.taskStatus.None?
      else Says(t.id) && Says(t.path) && Says(t.branch) && Says(t.base) && Says(c.taskHead)
           && (c.taskStatus.Some? || EffectivePhase(d).CleanupBranch?)
    ensures var n := d.body.intents;
      Some("") !in {n.treePath, n.treeBranch, n.treeBase, n.mergePre, n.mergeTask, n.mergeCommit,
                   d.body.lastTaskHead, d.checkpoints.taskHead}
  {
  }

  /** Every result that is read keeps its own contract, and builder and auditor name the planner's task. */
  lemma ResultsAreRead(d: Doc)
    requires Loads(d)
    ensures var r := d.body.results;
      && (r.planner.Some? && r.planner.value.status.Ready? ==>
            && Says(r.planner.value.taskId) && Says(r.planner.value.objective) && Says(r.planner.value.rationale)
            && r.planner.value.acceptanceCriteria != [])
      && (r.planner.Some? && r.planner.value.decisionRequired ==>
            && r.planner.value.status.Ready? && Says(r.planner.value.decisionQuestion) && Says(r.planner.value.decisionRationale))
      && (r.architect.Some? ==>
            if r.architect.value.status.Decided? then r.architect.value.adr.Some? else Says(r.architect.value.inputRequest))
      && (r.builder.Some? && r.builder.value.status.Complete? ==> Says(r.builder.value.commit))
      && (r.auditor.Some? && r.auditor.value.disposition.Revise? ==> r.auditor.value.requiredChanges != [])
      && (r.auditor.Some? && r.auditor.value.decisionRequired ==>
            && r.auditor.value.disposition.Replan? && Says(r.auditor.value.decisionQuestion) && Says(r.auditor.value.decisionRationale))
      && (r.planner.Some? && r.planner.value.taskId.Some? && r.builder.Some? ==> Some(r.builder.value.taskId) == r.planner.value.taskId)
      && (r.planner.Some? && r.planner.value.taskId.Some? && r.auditor.Some? && !r.auditor.value.disposition.Replan? ==>
            Some(r.auditor.value.taskId) == r.planner.value.taskId)
      && (r.decision.Some? ==> r.decision.value.question != "" && r.decision.value.rationale != "")
      && (r.completed.Some? ==> r.completed.value.taskId != "" && r.completed.value.objective != "" && r.completed.value.rationale != "")
    ensures d.body.results.verification.Some? ==>
              var v := d.body.results.verification.value;
              && (forall k :: 0 <= k < |v.commands| ==>
                    && v.commands[k].command != "" && (v.commands[k].timedOut ==> v.commands[k].returncode.None?)
                    && (v.commands[k].ok <==> !v.commands[k].timedOut && v.commands[k].returncode == Some(0)))
              && (v.ok <==> forall k :: 0 <= k < |v.commands| ==> v.commands[k].ok)
  {
  }

  /** A decision is open, and the architect's answer, if there is one, is to its question. */
  predicate AsksAboutDecision(r: Results) {
    r.decision.Some? && (r.architect.Some? ==> r.architect.value.question == r.decision.value.question)
  }

  /** A question that is read fits the state it asks about; outside awaiting_input only answered
      guidance is kept, for the phase it is for. A failure that is read says where it is retried. */
  lemma QuestionIsRead(d: Doc)
    requires Loads(d)
    ensures d.phase.OperationalFailure? || d.phase.Failed? ==> d.lastError.Some?
    ensures d.body.question.Some? ==>
              var q := d.body.question.value;
              var at := if d.phase.Failed? then d.lastError.value.failedPhase else EffectivePhase(d);
              && (q.message.Reported? ==> q.message.text != "")
              && (match q.kind
                  case ArchitectInput => q.context.AboutQuestion? && q.context.question != ""
                  case DecisionApproval => q.context.AboutAdr? && q.context.title != "" && q.context.decision != ""
                  case _ => q.context.AboutStatus? && !q.context.status.Complete?)
              && (!EffectivePhase(d).AwaitingInput? ==>
                    q.answer.Some? && (if at.Architecting? then q.kind.ArchitectInput? else at.Building? && q.kind.BuilderGuidance?))
              && (match q.kind
                  case ArchitectInput =>
                    AsksAboutDecision(d.body.results) && q.context == AboutQuestion(d.body.results.decision.value.question)
                  case DecisionApproval => AsksAboutDecision(d.body.results) && d.body.results.architect.Some?
                  case _ => d.body.results.builder.Some? && q.context == AboutStatus(d.body.results.builder.value.status))
    ensures d.lastError.Some? ==>
              var e := d.lastError.value;
              && (e.message.Reported? ==> e.message.text != "") && e.operation == e.failedPhase
              && (if e.retryable
                  then e.retryPhase == Some(e.failedPhase) && !IsTerminal(e.failedPhase) && !e.failedPhase.OperationalFailure?
                  else e.retryPhase.None? && !e.requiresRepair)
              && (d.phase.OperationalFailure? ==> e.retryable) && (d.phase.Failed? ==> !e.retryable)
  {
  }

  /** What each phase finds when it starts from what was read. */
  lemma PhaseIsRead(d: Doc)
    requires Loads(d)
    ensures var p, b, r := EffectivePhase(d), d.body, d.body.results;
      && (p.CreatingWorktree? ==> Says(b.intents.treePath) && Says(b.intents.treeBranch) && Says(b.intents.treeBase) && b.task.id.None?)
      && (p.CreatingWorktree? || p.AwaitingInput? || IsTaskPhase(p) ==> r.planner.Some? && r.planner.value.status.Ready?)
      && (p.AwaitingInput? || IsTaskPhase(p) ==> b.task.id.Some?)
      && (p.AwaitingInput? ==>
            && b.question.Some?
            && (match b.question.value.kind
                case ArchitectInput =>
                  r.architect.Some? && r.decision.Some? && b.question.value.context == AboutQuestion(r.decision.value.question)
                case DecisionApproval =>
                  && r.decision.Some? && r.architect.Some? && r.architect.value.status.Decided? && r.architect.value.adr.Some?
                  && b.question.value.context == AboutAdr(r.architect.value.adr.value.title, r.architect.value.adr.value.decision)
                case _ =>
                  r.builder.Some? && !r.builder.value.status.Complete? && b.question.value.context == AboutStatus(r.builder.value.status)))
      && (p.Architecting? || p.RecordingDecision? ==>
            && r.decision.Some?
            && (match r.decision.value.origin
                case FromPlanner => r.planner.value.decisionRequired && r.planner.value.decisionQuestion == Some(r.decision.value.question)
                                    && r.planner.value.decisionRationale == Some(r.decision.value.rationale)
                case FromAuditor => r.auditor.Some? && r.auditor.value.decisionRequired
                                    && r.planner.value.taskId == Some(r.auditor.value.taskId)
                                    && r.auditor.value.decisionQuestion == Some(r.decision.value.question)
                                    && r.auditor.value.decisionRationale == Some(r.decision.value.rationale)))
      && (p.RecordingDecision? ==>
            && b.intents.adrPath.Some? && b.intents.adrPath.value.name != "" && b.intents.adrHash.Some?
            && r.architect.Some? && r.architect.value.status.Decided? && r.architect.value.question == r.decision.value.question)
      && (p.Done? ==> b.task.id.None?)
  {
  }

  /** After the build: the head built is the one reported and checked out, the commands configured are
      the ones run, and what is merged is that head, on an ACCEPT. */
  lemma BuildIsRead(d: Doc)
    requires Loads(d)
    ensures var p, b, r := EffectivePhase(d), d.body, d.body.results;
      && (IsPostBuild(p) ==>
            && r.builder.Some? && r.builder.value.status.Complete? && r.builder.value.commit.Some? && b.lastTaskHead.Some?
            && 7 <= |r.builder.value.commit.value| <= 40 && |b.lastTaskHead.value| == 40
            && (forall k :: 0 <= k < 40 ==> IsHex(b.lastTaskHead.value[k]))
            && (forall k :: 0 <= k < |r.builder.value.commit.value| ==>
                  LowerChar(r.builder.value.commit.value[k]) == LowerChar(b.lastTaskHead.value[k]))
            && d.checkpoints.taskHead == b.lastTaskHead)
      && (p.Verifying? ==> b.options.verifyCommands != [] && r.verification.None?)
      && (p.Auditing? || IsMergeOrCleanup(p) ==>
            if b.options.verifyCommands == [] then r.verification.None?
            else r.verification.Some? && |r.verification.value.commands| == |b.options.verifyCommands|
                 && forall k :: 0 <= k < |b.options.verifyCommands| ==>
                      r.verification.value.commands[k].command == b.options.verifyCommands[k])
      && (IsPreVerification(p) ==> r.verification.None?)
      && (IsMergeOrCleanup(p) ==>
            && b.intents.mergeTask == b.lastTaskHead && b.intents.mergePre.Some?
            && r.auditor.Some? && r.auditor.value.disposition.Accept? && (!p.Merging? ==> b.intents.mergeCommit.Some?))
  {
    if IsPostBuild(EffectivePhase(d)) {
      var reported, head := d.body.results.builder.value.commit.value, d.body.lastTaskHead.value;
      assert forall k :: 0 <= k < |reported| ==> Lower(reported)[k] == Lower(head)[k];
    }
    if d.body.results.verification.Some? {
      var commands := d.body.results.verification.value.commands;
      assert forall k :: 0 <= k < |commands| ==> CommandTexts(commands)[k] == commands[k].command;
    }
  }
}
