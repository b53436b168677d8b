/** `GitRepo`: the commands that change the repository step by step, each proved to be the
    function of the repository value it is specified by, and to lose nothing. */
module GitCommands {
  import opened Text
  import opened Document
  import opened Repository
  import opened RepositoryFacts
  import opened Conservation
  import opened Merges

  lemma CreatedIsSafe(g: Git, taskId: string, path: string, branch: string, base: string)
    requires WellFormed(g)
    ensures Conserves(g, g)
    ensures var r := CreateOrReconcile(g, taskId, path, branch, base);
      r.Ok? ==>
        && Conserves(g, r.value) && HeadAt(r.value, path) == Some(base)
        && r.value.trees[path].branch == branch != r.value.mainBranch
  {
    NothingConserves(g);
    if CreateOrReconcile(g, taskId, path, branch, base).Ok? {
      CreateConserves(g, taskId, path, branch, base);
      CreateKeeps(g, taskId, path, branch, base);
    }
  }

  lemma RemovedIsSafe(g: Git, path: string, branch: string)
    requires WellFormed(g)
    ensures Conserves(g, g)
    ensures var r := RemoveWorktree(g, path, branch);
      r.Ok? ==> Conserves(g, r.value)
  {
    NothingConserves(g);
    if RemoveWorktree(g, path, branch).Ok? {
      RemoveConserves(g, path, branch);
    }
  }

  lemma DeletedIsSafe(g: Git, branch: string)
    requires WellFormed(g)
    ensures Conserves(g, g)
    ensures var r := DeleteBranch(g, branch);
      r.Ok? ==> Conserves(g, r.value)
  {
    NothingConserves(g);
    if DeleteBranch(g, branch).Ok? {
      DeleteConserves(g, branch);
    }
  }

  class GitRepo {
    var git: Git

    constructor (g: Git)
      ensures git == g
    {
      git := g;
    }

    /** `create_or_reconcile_task_worktree`. */
    method CreateOrReconcileTaskWorktree(taskId: string, path: string, branch: string, base: string)
      returns (failure: Option<Reason>)
      modifies this
      ensures var r := CreateOrReconcile(old(git), taskId, path, branch, base);
        match r
        case Ok(g) => failure.None? && git == g
        case GitFails(reason) => failure == Some(reason) && git == old(git)
        case Conflicts(_) => false
      ensures WellFormed(old(git)) ==> Conserves(old(git), git)
      ensures WellFormed(old(git)) && failure.None? ==>
                HeadAt(git, path) == Some(base) && git.trees[path].branch == branch != git.mainBranch
    {
      if WellFormed(git) {
        CreatedIsSafe(git, taskId, path, branch, base);
      }
      if Sanitize(taskId) == "" {
        return Some(EmptyTaskId);
      }
      if path != WorktreePathFor(git, taskId) {
        return Some(PathMismatch);
      }
      if branch != BranchFor(taskId) {
        return Some(BranchMismatch);
      }
      if base !in git.commits {
        return Some(BaseGone);
      }
      var pathExists, branchExists := PathExists(git, path), branch in git.branches;
      if !pathExists && !branchExists {
        git := git.(branches := git.branches[branch := base], trees := git.trees[path := Worktree(branch, [], map[])]);
        return None;
      }
      if pathExists != branchExists {
        return Some(PartialState);
      }
      if path !in git.trees {
        return Some(Unregistered);
      }
      if git.trees[path].branch != branch {
        return Some(WrongBranch);
      }
      if git.branches[branch] != base {
        return Some(UnexpectedHead);
      }
      if git.trees[path].status != [] {
        return Some(NotClean);
      }
      return None;
    }

    /** `_find_existing_merge_of`: the first commit the listing offers whose second parent is the
        task head. */
    method FindExistingMergeOf(pre: string, task: string, searchHead: string) returns (found: Option<string>)
      ensures found == FirstMergeOf(git.commits, RevList(git.commits, pre, searchHead), task)
    {
      var listed := RevList(git.commits, pre, searchHead);
      var k := 0;
      while k < |listed|
        invariant 0 <= k <= |listed|
        invariant FirstMergeOf(git.commits, listed, task) == FirstMergeOf(git.commits, listed[k..], task)
      {
        var candidate := listed[k];
        if IsMergeOf(git.commits, candidate, task) {
          return Some(candidate);
        }
        assert listed[k..][1..] == listed[k + 1..];
        k := k + 1;
      }
      return None;
    }

    /** `reconcile_or_merge_task`. */
    method ReconcileOrMergeTask(pre: string, task: string, choice: MergeChoice) returns (merged: Outcome<string>)
      requires git.mainBranch in git.branches
      modifies this
      ensures (git, merged) == ReconcileOrMerge(old(git), pre, task, choice)
      ensures WellFormed(old(git)) && (choice.Merged? ==> FreshCommit(old(git), choice.commit)) ==> Conserves(old(git), git)
      ensures WellFormed(old(git)) && (choice.Merged? ==> FreshCommit(old(git), choice.commit)) && merged.Ok?
              && ReadyToMerge(old(git), pre, task) ==>
                MainHead(git) == merged.value && IsMergeOfBoth(git.commits, merged.value, pre, task)
    {
      if WellFormed(git) && (choice.Merged? ==> FreshCommit(git, choice.commit)) {
        MergeConserves(git, pre, task, choice);
        if pre in git.commits && ReadyToMerge(git, pre, task) {
          AttemptIsExact(git, pre, task, choice);
        }
      }
      if pre !in git.commits || task !in git.commits {
        return GitFails(CommitGone);
      }
      var current := MainHead(git);
      if current != pre && !Reaches(git.commits, current, pre) {
        return GitFails(Diverged);
      }
      var existing := FindExistingMergeOf(pre, task, current);
      if existing.Some? {
        return Outcome.Ok(existing.value);
      }
      if git.mainStatus != [] {
        return GitFails(NotClean);
      }
      if Reaches(git.commits, current, task) {
        return GitFails(WrongParents);
      }
      match choice {
        case Merged(commit) =>
          git := MergeInto(git, commit, task);
          return Outcome.Ok(commit);
        case Conflicted =>
          return Conflicts(Conflict);
        case Rejected =>
          return GitFails(MergeFailed);
        case NotRestored(status) =>
          git := git.(mainStatus := status);
          return GitFails(NotRestorable);
      }
    }

    /** `remove_task_worktree_only`. */
    method RemoveTaskWorktreeOnly(path: string, branch: string) returns (failure: Option<Reason>)
      modifies this
      ensures match RemoveWorktree(old(git), path, branch)
        case Ok(g) => failure.None? && git == g
        case GitFails(reason) => failure == Some(reason) && git == old(git)
        case Conflicts(_) => false
      ensures WellFormed(old(git)) ==> Conserves(old(git), git)
    {
      if WellFormed(git) {
        RemovedIsSafe(git, path, branch);
      }
      if path !in git.trees {
        return None;
      }
      if git.trees[path].branch != branch {
        return Some(WrongBranch);
      }
      if git.trees[path].status != [] {
        return Some(NotClean);
      }
      git := git.(trees := git.trees - {path});
      return None;
    }

    /** `delete_task_branch_only`. */
    method DeleteTaskBranchOnly(branch: string) returns (failure: Option<Reason>)
      requires git.mainBranch in git.branches
      modifies this
      ensures match DeleteBranch(old(git), branch)
        case Ok(g) => failure.None? && git == g
        case GitFails(reason) => failure == Some(reason) && git == old(git)
        case Conflicts(_) => false
      ensures WellFormed(old(git)) ==> Conserves(old(git), git)
    {
      if WellFormed(git) {
        DeletedIsSafe(git, branch);
      }
      if branch !in git.branches {
        return None;
      }
      if !Reaches(git.commits, MainHead(git), git.branches[branch]) {
        return Some(NotIntegrated);
      }
      if branch == git.mainBranch || CheckedOut(git, branch) {
        return Some(CheckedOutBranch);
      }
      git := git.(branches := git.branches - {branch});
      return None;
    }
  }
}
