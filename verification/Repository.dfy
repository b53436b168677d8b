/** The Git repository as a value: a finite commit graph with ordered parents, branches,
    registered worktrees with a status listing, and the commands the supervisor runs on it. */
module Repository {
  import opened Text
  import opened Document

  /** A commit and its generation number, which is above that of every parent. */
  datatype Commit = Commit(parents: seq<string>, gen: nat)

  /** A registered task worktree. Its HEAD is the tip of its branch. `adrs` maps the names
      in its decisions directory to their contents. */
  datatype Worktree = Worktree(branch: string, status: seq<StatusLine>, adrs: map<string, FileText>)

  datatype Git = Git(
    root: string,
    commonDir: string,
    commits: map<string, Commit>,
    branches: map<string, string>,
    mainBranch: string,
    mainStatus: seq<StatusLine>,
    trees: map<string, Worktree>,
    strays: set<string>)

  /** A Git command either succeeds or raises `GitError`/`MergeConflictError` with a reason. */
  datatype Outcome<+T> = Ok(value: T) | GitFails(reason: Reason) | Conflicts(reason: Reason)

  /** What `git merge --no-ff` did when it was actually run. */
  datatype MergeChoice =
    | Merged(commit: string)
    | Conflicted
    | Rejected
    | NotRestored(status: seq<StatusLine>)

  // ----------------------------------------------------------- reachability

  /** True when commit `a` is `d` itself or one of its ancestors. */
  predicate Reaches(cs: map<string, Commit>, d: string, a: string)
    decreases if d in cs then cs[d].gen else 0
  {
    && d in cs
    && (d == a || exists p :: p in cs[d].parents && p in cs && cs[p].gen < cs[d].gen && Reaches(cs, p, a))
  }

  /** The first-parent chain starting at a commit, newest first. */
  function FirstParents(cs: map<string, Commit>, d: string): (chain: seq<string>)
    ensures forall i :: 0 <= i < |chain| ==> chain[i] in cs && d in cs && cs[chain[i]].gen <= cs[d].gen
    decreases if d in cs then cs[d].gen else 0
  {
    if d !in cs then []
    else if cs[d].parents == [] then [d]
    else
      var p := cs[d].parents[0];
      if p in cs && cs[p].gen < cs[d].gen then [d] + FirstParents(cs, p) else [d]
  }

  predicate WellFormedCommits(cs: map<string, Commit>) {
    && (forall c :: c in cs ==> IsCanonicalCommit(c))
    && (forall c, i :: c in cs && 0 <= i < |cs[c].parents| ==>
          cs[c].parents[i] in cs && cs[cs[c].parents[i]].gen < cs[c].gen)
  }

  predicate BranchesPoint(branches: map<string, string>, cs: map<string, Commit>) {
    forall b :: b in branches ==> branches[b] in cs
  }

  /** Every task worktree is on its own existing branch, never on the integration branch. */
  predicate TreesFit(trees: map<string, Worktree>, branches: set<string>, mainBranch: string) {
    && (forall t :: t in trees ==> trees[t].branch in branches && trees[t].branch != mainBranch)
    && (forall t, u :: t in trees && u in trees && t != u ==> trees[t].branch != trees[u].branch)
  }

  predicate WellFormed(g: Git) {
    && WellFormedCommits(g.commits)
    && BranchesPoint(g.branches, g.commits)
    && g.mainBranch in g.branches
    && TreesFit(g.trees, g.branches.Keys, g.mainBranch)
    && g.trees.Keys !! g.strays
  }

  function MaxGen(cs: map<string, Commit>, parents: seq<string>): (m: nat)
    ensures forall p :: p in parents && p in cs ==> cs[p].gen <= m
  {
    if parents == [] then 0
    else
      var rest := MaxGen(cs, parents[1..]);
      assert parents == [parents[0]] + parents[1..];
      if parents[0] in cs && cs[parents[0]].gen > rest then cs[parents[0]].gen else rest
  }

  function AddCommit(cs: map<string, Commit>, c: string, parents: seq<string>): map<string, Commit> {
    cs[c := Commit(parents, MaxGen(cs, parents) + 1)]
  }

  /** A name Git can give a new commit: canonical and unused. */
  predicate FreshCommit(g: Git, c: string) {
    c !in g.commits && IsCanonicalCommit(c)
  }

  // ------------------------------------------------------------------ names

  predicate IsIdChar(c: char) {
    ('a' <= c <= 'z') || ('A' <= c <= 'Z') || ('0' <= c <= '9') || c == '.' || c == '_' || c == '-'
  }

  /** Each maximal run of disallowed characters becomes a single dash. */
  function DashRuns(s: string, inRun: bool): string {
    if s == "" then ""
    else if IsIdChar(s[0]) then [s[0]] + DashRuns(s[1..], false)
    else if inRun then DashRuns(s[1..], true)
    else "-" + DashRuns(s[1..], true)
  }

  function TrimDashDot(s: string): string
    decreases |s|
  {
    if s != "" && (s[0] == '-' || s[0] == '.') then TrimDashDot(s[1..])
    else if s != "" && (s[|s| - 1] == '-' || s[|s| - 1] == '.') then TrimDashDot(s[..|s| - 1])
    else s
  }

  /** `sanitize_task_id`; the empty result is an error there. */
  function Sanitize(taskId: string): string {
    TrimDashDot(DashRuns(Strip(taskId), false))
  }

  function WorktreePathFor(g: Git, taskId: string): string {
    g.root + "-" + Sanitize(taskId)
  }

  function BranchFor(taskId: string): string {
    "loop/" + Sanitize(taskId)
  }

  // ---------------------------------------------------------------- queries

  function MainHead(g: Git): string
    requires g.mainBranch in g.branches
  {
    g.branches[g.mainBranch]
  }

  function HeadAt(g: Git, path: string): Option<string> {
    if path in g.trees && g.trees[path].branch in g.branches then Some(g.branches[g.trees[path].branch]) else None
  }

  predicate PathExists(g: Git, path: string) {
    path in g.trees || path in g.strays
  }

  /** `git rev-parse --verify <hex>`: the one commit the abbreviation names, if there is one. */
  function Resolve(cs: map<string, Commit>, candidate: string): (r: Option<string>)
    ensures r.Some? ==> r.value in cs && CommitIdsMatch(candidate, r.value)
  {
    if exists c :: c in cs && CommitIdsMatch(candidate, c)
                   && forall o :: o in cs && CommitIdsMatch(candidate, o) ==> o == c
    then
      var c :| c in cs && CommitIdsMatch(candidate, c)
               && forall o :: o in cs && CommitIdsMatch(candidate, o) ==> o == c;
      Some(c)
    else None
  }

  /** `validate_task_worktree`. */
  predicate TaskWorktreeValid(g: Git, path: string, branch: string, base: string, expectedHead: string) {
    && path in g.trees
    && branch in g.branches
    && g.trees[path].branch == branch
    && HeadAt(g, path) == Some(expectedHead)
    && base in g.commits
    && Reaches(g.commits, expectedHead, base)
  }

  /** `verify_builder_commit`, on success the full name of the verified commit. */
  function VerifyBuilderCommit(g: Git, path: string, branch: string, base: string, reported: string): (r: Outcome<string>)
    ensures !r.Conflicts?
  {
    var head := HeadAt(g, path);
    if head.None? then GitFails(NoWorktree)
    else if g.trees[path].branch != branch then GitFails(WrongBranch)
    else if g.trees[path].status != [] then GitFails(NotClean)
    else if !IsReportedCommit(reported) then GitFails(NotAHash)
    else if Resolve(g.commits, reported).None? then GitFails(Unresolvable)
    else if Resolve(g.commits, reported) != head then GitFails(NotTheHead)
    else if Reaches(g.commits, base, head.value) then GitFails(NoNewCommits)
    else Ok(head.value)
  }

  // ---------------------------------------------------------------- effects

  /** A commit an agent makes, with the parents it chooses. */
  datatype NewCommit = NewCommit(name: string, parents: seq<string>)

  /** What an agent or command leaves behind in the task worktree: new commits, oldest first, the
      commit its branch now points to, if it was moved, and the resulting status listing. The new
      tip may be any commit at all: the agent may stack commits, amend or reset. */
  datatype Edit = Edit(commits: seq<NewCommit>, tip: Option<string>, status: seq<StatusLine>)

  /** `create_or_reconcile_task_worktree`. */
  function CreateOrReconcile(g: Git, taskId: string, path: string, branch: string, base: string): (r: Outcome<Git>)
    ensures !r.Conflicts?
  {
    if Sanitize(taskId) == "" then GitFails(EmptyTaskId)
    else if path != WorktreePathFor(g, taskId) then GitFails(PathMismatch)
    else if branch != BranchFor(taskId) then GitFails(BranchMismatch)
    else if base !in g.commits then GitFails(BaseGone)
    else if !PathExists(g, path) && branch !in g.branches then
      Ok(g.(branches := g.branches[branch := base], trees := g.trees[path := Worktree(branch, [], map[])]))
    else if PathExists(g, path) != (branch in g.branches) then GitFails(PartialState)
    else if path !in g.trees then GitFails(Unregistered)
    else if g.trees[path].branch != branch then GitFails(WrongBranch)
    else if g.branches[branch] != base then GitFails(UnexpectedHead)
    else if g.trees[path].status != [] then GitFails(NotClean)
    else Ok(g)
  }

  /** The commits `rev-list --first-parent pre..head` prints. */
  function RevList(cs: map<string, Commit>, pre: string, head: string): seq<string> {
    NotReachable(cs, pre, FirstParents(cs, head))
  }

  function NotReachable(cs: map<string, Commit>, pre: string, chain: seq<string>): (kept: seq<string>)
    ensures forall c :: c in kept <==> c in chain && !Reaches(cs, pre, c)
  {
    if chain == [] then []
    else
      assert chain == [chain[0]] + chain[1..];
      if Reaches(cs, pre, chain[0]) then NotReachable(cs, pre, chain[1..])
      else [chain[0]] + NotReachable(cs, pre, chain[1..])
  }

  predicate IsMergeOf(cs: map<string, Commit>, c: string, task: string) {
    c in cs && |cs[c].parents| >= 2 && cs[c].parents[1] == task
  }

  /** The first listed commit whose second parent is the task head. */
  function FirstMergeOf(cs: map<string, Commit>, candidates: seq<string>, task: string): (r: Option<string>)
    ensures r.Some? ==> r.value in candidates && IsMergeOf(cs, r.value, task)
    ensures r.None? ==> forall c :: c in candidates ==> !IsMergeOf(cs, c, task)
  {
    if candidates == [] then None
    else
      assert candidates == [candidates[0]] + candidates[1..];
      if IsMergeOf(cs, candidates[0], task) then Some(candidates[0]) else FirstMergeOf(cs, candidates[1..], task)
  }

  /** The repository once the integration branch has merged a task head. */
  function MergeInto(g: Git, commit: string, task: string): Git
    requires g.mainBranch in g.branches
  {
    g.(commits := AddCommit(g.commits, commit, [MainHead(g), task]), branches := g.branches[g.mainBranch := commit])
  }

  /** `reconcile_or_merge_task`: the repository afterwards and the merge commit or the error. */
  function ReconcileOrMerge(g: Git, pre: string, task: string, choice: MergeChoice): (r: (Git, Outcome<string>))
    requires g.mainBranch in g.branches
  {
    var head := MainHead(g);
    if pre !in g.commits then (g, GitFails(CommitGone))
    else if task !in g.commits then (g, GitFails(CommitGone))
    else if head != pre && !Reaches(g.commits, head, pre) then (g, GitFails(Diverged))
    else
      var existing := FirstMergeOf(g.commits, RevList(g.commits, pre, head), task);
      if existing.Some? then (g, Ok(existing.value))
      else if g.mainStatus != [] then (g, GitFails(NotClean))
      else if Reaches(g.commits, head, task) then (g, GitFails(WrongParents))
      else
        match choice
        case Merged(c) => (MergeInto(g, c, task), Ok(c))
        case Conflicted => (g, Conflicts(Conflict))
        case Rejected => (g, GitFails(MergeFailed))
        case NotRestored(status) =>
          (g.(mainStatus := status), GitFails(NotRestorable))
  }

  /** `remove_task_worktree_only`. */
  function RemoveWorktree(g: Git, path: string, branch: string): (r: Outcome<Git>)
    ensures !r.Conflicts?
  {
    if path !in g.trees then Ok(g)
    else if g.trees[path].branch != branch then GitFails(WrongBranch)
    else if g.trees[path].status != [] then GitFails(NotClean)
    else Ok(g.(trees := g.trees - {path}))
  }

  predicate CheckedOut(g: Git, branch: string) {
    exists t :: t in g.trees && g.trees[t].branch == branch
  }

  /** `delete_task_branch_only`; Git itself refuses a branch that is checked out. */
  function DeleteBranch(g: Git, branch: string): (r: Outcome<Git>)
    requires g.mainBranch in g.branches
    ensures !r.Conflicts?
  {
    if branch !in g.branches then Ok(g)
    else if !Reaches(g.commits, MainHead(g), g.branches[branch]) then GitFails(NotIntegrated)
    else if branch == g.mainBranch || CheckedOut(g, branch) then GitFails(CheckedOutBranch)
    else Ok(g.(branches := g.branches - {branch}))
  }

  /** The commits once an edit's have been added. */
  function Grow(cs: map<string, Commit>, added: seq<NewCommit>): map<string, Commit>
    decreases added
  {
    if added == [] then cs else Grow(AddCommit(cs, added[0].name, added[0].parents), added[1..])
  }

  function TipAfter(tip: string, e: Edit): string {
    if e.tip.Some? then e.tip.value else tip
  }

  function ApplyEdit(g: Git, path: string, e: Edit): Git {
    if HeadAt(g, path).None? then g
    else
      var t := g.trees[path];
      g.(commits := Grow(g.commits, e.commits),
         branches := g.branches[t.branch := TipAfter(HeadAt(g, path).value, e)],
         trees := g.trees[path := t.(status := e.status)])
  }

  /** New names, on parents that exist by then. */
  predicate CommitsFit(cs: map<string, Commit>, added: seq<NewCommit>)
    decreases added
  {
    added == [] ||
    (&& added[0].name !in cs && IsCanonicalCommit(added[0].name)
     && (forall p :: p in added[0].parents ==> p in cs)
     && CommitsFit(AddCommit(cs, added[0].name, added[0].parents), added[1..]))
  }

  /** An edit Git can perform. */
  predicate EditFits(g: Git, e: Edit) {
    CommitsFit(g.commits, e.commits) && (e.tip.Some? ==> e.tip.value in Grow(g.commits, e.commits))
  }
}
