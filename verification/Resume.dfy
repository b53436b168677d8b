/** What a resumed run is checked against before anything is started. */
module Resume {
  import opened Text
  import opened Document
  import opened Repository
  import opened Decisions
  import opened Transitions
  import opened Invariant

  /** `_validate_recording_decision_status_drift`: the listings compared as line counts. */
  predicate OnlyAdrAppeared(persisted: seq<StatusLine>, actual: seq<StatusLine>, name: string) {
    && multiset(persisted) - multiset(actual) == multiset{}
    && multiset(actual) - multiset(persisted) == multiset{UntrackedAdr(name)}
  }

  predicate RecordingTargetOk(b: Body) {
    && b.intents.adrPath.Some? && b.intents.adrHash.Some?
    && ValidTarget(OrEmpty(b.task.path), b.intents.adrPath.value)
  }

  predicate AdrAlreadyWritten(d: Doc, w: Worktree) {
    && RecordingTargetOk(d.body)
    && d.body.intents.adrPath.value.name in w.adrs
    && w.adrs[d.body.intents.adrPath.value.name] == d.body.intents.adrHash.value
    && d.checkpoints.taskStatus.Some?
    && OnlyAdrAppeared(d.checkpoints.taskStatus.value, w.status, d.body.intents.adrPath.value.name)
  }

  /** The checks on an active task worktree outside cleanup. */
  predicate ActiveWorktreeOk(d: Doc, g: Git) {
    && d.checkpoints.taskHead.Some?
    && var path := OrEmpty(d.body.task.path);
    && TaskWorktreeValid(g, path, OrEmpty(d.body.task.branch), OrEmpty(d.body.task.base), d.checkpoints.taskHead.value)
    && (d.checkpoints.taskStatus.Some? && g.trees[path].status != d.checkpoints.taskStatus.value ==>
          EffectivePhase(d).RecordingDecision? && AdrAlreadyWritten(d, g.trees[path]))
  }

  /** `_validate_resume_cleanup_worktree`. */
  predicate CleanupWorktreeOk(t: Task, g: Git) {
    var path := OrEmpty(t.path);
    if path in g.trees then g.trees[path].branch == OrEmpty(t.branch) else path !in g.strays
  }

  /** `_validate_resume_cleanup_branch`. */
  predicate CleanupBranchOk(t: Task, g: Git)
    requires HasMain(g)
  {
    && OrEmpty(t.path) !in g.trees
    && (OrEmpty(t.branch) in g.branches ==> Reaches(g.commits, MainHead(g), g.branches[OrEmpty(t.branch)]))
  }

  predicate SameRepository(h: Header, g: Git) {
    h.commonDir == g.commonDir && h.integrationPath == g.root && h.integrationBranch == g.mainBranch
  }

  /** `_validate_resume`. */
  predicate ResumeAccepts(d: Doc, g: Git)
    requires HasMain(g)
  {
    var p := EffectivePhase(d);
    && SameRepository(d.body.header, g)
    && g.mainStatus == []
    && (MainHead(g) == d.checkpoints.mainHead || Reaches(g.commits, MainHead(g), d.checkpoints.mainHead))
    && (if !NoTask(d.body.task) then
          (match p
           case CleanupBranch => CleanupBranchOk(d.body.task, g)
           case CleanupWorktree => CleanupWorktreeOk(d.body.task, g)
           case _ => ActiveWorktreeOk(d, g))
        else !(p.Architecting? || p.Building? || p.Auditing?))
    && (p.RecordingDecision? ==> RecordingTargetOk(d.body))
  }

  // --------------------------------------------------------- what it accepts

  /** The line counts differ as required exactly when the listing gained that one line. */
  lemma DriftIsOneLine(persisted: seq<StatusLine>, actual: seq<StatusLine>, name: string)
    ensures OnlyAdrAppeared(persisted, actual, name) <==>
              multiset(actual) == multiset(persisted) + multiset{UntrackedAdr(name)}
  {
    if OnlyAdrAppeared(persisted, actual, name) {
      forall l: StatusLine
        ensures multiset(actual)[l] == (multiset(persisted) + multiset{UntrackedAdr(name)})[l]
      {
        assert (multiset(persisted) - multiset(actual))[l] == 0;
        assert (multiset(actual) - multiset(persisted))[l] == multiset{UntrackedAdr(name)}[l];
      }
    }
  }

  /** The document describes the repository as it is. */
  predicate Current(d: Doc, g: Git)
    requires HasMain(g)
  {
    Checkpoint(d, g) == Some(d)
  }

  /** The task branch still descends from its base, where that is checked. */
  predicate BaseKept(d: Doc, g: Git) {
    var t, p := d.body.task, EffectivePhase(d);
    var head := HeadAt(g, OrEmpty(t.path));
    || NoTask(t) || p.CleanupWorktree? || p.CleanupBranch?
    || (OrEmpty(t.base) in g.commits && head.Some? && Reaches(g.commits, head.value, OrEmpty(t.base)))
  }

  /** A run that stopped between steps can be resumed from any phase, unless an unrestored
      merge left the integration worktree dirty or an agent has taken its branch off its base. */
  lemma StoppedRunResumes(d: Doc, g: Git)
    requires AtRest(d, g) && !IsTerminal(d.phase) && SameRepository(d.body.header, g) && Current(d, g)
    requires EffectivePhase(d).CleanupBranch? ==> CleanupBranchOk(d.body.task, g)
    ensures ResumeAccepts(d, g) <==> g.mainStatus == [] && BaseKept(d, g)
  {
  }

  /** The task worktree is where it was left: same branch, same HEAD, its base still below, and the
      same status; or it has gained exactly the ADR that was about to be written there. */
  predicate IsAsLeft(d: Doc, g: Git) {
    var t, c, n := d.body.task, d.checkpoints, d.body.intents;
    var path := OrEmpty(t.path);
    && path in g.trees && Some(g.trees[path].branch) == t.branch
    && HeadAt(g, path) == c.taskHead && c.taskHead.Some? && OrEmpty(t.base) in g.commits
    && Reaches(g.commits, c.taskHead.value, OrEmpty(t.base))
    && (Some(g.trees[path].status) == c.taskStatus
        || (&& EffectivePhase(d).RecordingDecision? && c.taskStatus.Some? && n.adrPath.Some?
            && multiset(g.trees[path].status) == multiset(c.taskStatus.value) + multiset{UntrackedAdr(n.adrPath.value.name)}
            && n.adrPath.value.name in g.trees[path].adrs && Some(g.trees[path].adrs[n.adrPath.value.name]) == n.adrHash))
  }

  /** In cleanup the worktree may be gone, but it may not be in other hands; once it must be gone,
      the branch may go only if the integration branch has it. */
  predicate CleanupGoesOn(d: Doc, g: Git)
    requires HasMain(g)
  {
    var path, branch := OrEmpty(d.body.task.path), OrEmpty(d.body.task.branch);
    if EffectivePhase(d).CleanupWorktree?
    then (path in g.trees && g.trees[path].branch == branch) || (path !in g.trees && path !in g.strays)
    else path !in g.trees && (branch !in g.branches || Reaches(g.commits, g.branches[g.mainBranch], g.branches[branch]))
  }

  predicate IsCleanup(p: Phase) {
    p.CleanupWorktree? || p.CleanupBranch?
  }

  lemma CleanupIsExact(d: Doc, g: Git)
    requires HasMain(g) && IsCleanup(EffectivePhase(d))
    ensures CleanupGoesOn(d, g) <==>
              if EffectivePhase(d).CleanupBranch? then CleanupBranchOk(d.body.task, g) else CleanupWorktreeOk(d.body.task, g)
  {
  }

  lemma ActiveIsExact(d: Doc, g: Git)
    requires Loads(d) && !NoTask(d.body.task) && !IsCleanup(EffectivePhase(d))
    requires EffectivePhase(d).RecordingDecision? ==> RecordingTargetOk(d.body)
    ensures ActiveWorktreeOk(d, g) <==> IsAsLeft(d, g)
  {
    if d.body.intents.adrPath.Some? && OrEmpty(d.body.task.path) in g.trees {
      DriftIsOneLine(d.checkpoints.taskStatus.value, g.trees[OrEmpty(d.body.task.path)].status, d.body.intents.adrPath.value.name);
    }
  }

  /** For whatever can be loaded, in whatever state the repository is by then: a run resumes exactly
      in its own repository, clean and grown only, with its worktree as it was left. */
  lemma ResumeIsExact(d: Doc, g: Git)
    requires Loads(d) && !IsTerminal(d.phase) && WellFormed(g)
    ensures ResumeAccepts(d, g) <==>
              && d.body.header.commonDir == g.commonDir && d.body.header.integrationPath == g.root
              && d.body.header.integrationBranch == g.mainBranch
              && g.mainStatus == [] && Reaches(g.commits, g.branches[g.mainBranch], d.checkpoints.mainHead)
              && (NoTask(d.body.task)
                  || (if IsCleanup(EffectivePhase(d)) then CleanupGoesOn(d, g) else IsAsLeft(d, g)))
              && (EffectivePhase(d).RecordingDecision? ==>
                    && IsAdrName(d.body.intents.adrPath.value.name)
                    && d.body.intents.adrPath.value.worktree == OrEmpty(d.body.task.path))
  {
    assert MainHead(g) == d.checkpoints.mainHead ==> Reaches(g.commits, MainHead(g), d.checkpoints.mainHead);
    if !NoTask(d.body.task) {
      if IsCleanup(EffectivePhase(d)) {
        CleanupIsExact(d, g);
      } else if !EffectivePhase(d).RecordingDecision? || RecordingTargetOk(d.body) {
        ActiveIsExact(d, g);
      }
    }
  }
}
