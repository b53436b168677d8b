# Verified model of the loop supervisor

A Dafny 4.11 model of the supervisor that drives an autonomous planner, architect, builder and
auditor through a task loop on a Git repository, and proofs of what it promises: when a saved state
can be read back, that a crash at the worst moment repeats nothing and loses nothing, that each
accepted task is merged exactly once and when what is merged is what was verified, that a run comes
to an end, and stops for want of work only when there is none, and that the repository lock is held by
at most one live process and released only when the agent server is known to be gone.

`dafny verify dfyconfig.toml` checks the whole project.

## Layout

**The supervisor protocol.**
`Contracts` has the four agent results and their cross-field rules. `Document` is the persisted run
document with the rules `Loads` of its strict reader, `StateReader` the reader itself, validator by
validator, and `Guarantees` what can be relied on of whatever it reads. `Repository` is Git as a
finite commit graph with ordered parents, branches, registered worktrees with a status listing, and
`Decisions` the naming, numbering and idempotent writing of ADRs. `Transitions` gives one
`advance()` call, and one iteration of `run()`, as functions of the document, the repository and a
`StepInput`: all that agents, operator, Git, disk and clock may answer. An agent may add commits on
any parents and move its branch to any commit. `RunState`, `GitRepo`, `Commands` and `Supervisor`
are the mutable objects of the source; each of their methods is proved to be the function of the
same name, and `GitRepo`'s commands, `Advance` and `Run` carry the main theorems as well. `Outcomes`
says of every phase where it leads and exactly when, in terms of the plans, reports, verdicts and
answers given; `Names` what titles and task ids become.

What a live run keeps does not depend on what can be read back. `Carrying` has limits, task and
plan, `Merges` the account of merges, `Reviews` the account of verified and accepted heads,
`Conservation` the repository; `Runs` proves all of them over every sequence of steps, counted
retries, failed startups, crashes between effect and save, and resumes. `Approvals` adds the
operator's consent to what is written, and `Progress` that a cycle in which nothing fails accepts
one task. What can be read back is a matter of its own: `Invariant`, `PhaseSteps` and `Closure` for
one call, `Readable` for whole runs. `Resume` and `Recovery` have resume validation and crash
refinement, `Termination` and `RunLoop` the measure and the loop. `Witnesses` has a concrete run for
each condition.

**Lock and session.** `LockProtocol` interleaves the system calls of any number of processes on one
host, with faults, deaths, reused process IDs and reboots; `LockObject` is one lock object under the
guard. `Session` is `RunSession`, whose class invariant is release safety: every public method keeps
it, so it holds over every sequence of calls. `ServerStop` is the staged shutdown of the server.
`SessionThreads` interleaves one driver with any number of `close()` and `stop_server()` calls.

**Loops against simple specifications.** `JsonShape`, `Utf8` and `Truncate`, `Sse`, `StdoutPump`,
and, for phase history, `ResetTable` (which transitions lower a counter), `History` (the checker) and
`Recording` (the recorder and its agreement with the checker).

## Conditions the code needs

*What can be read back.* A written document is readable if and only if the guard of its phase,
`PhaseSteps.PhaseGuard`, held: a plan does not rename a task that a REVISE or ACCEPT verdict still
speaks about; an ADR put up for approval has a title and a decision; a COMPLETE build that acted on
guidance also verifies; and, after the build, only the builder has moved the task HEAD, unless the
verdict discards the build anyway. `Witnesses` shows each failing. Over whole runs: everything on disk
is readable if and only if every step that persists something meets its guard.

*What is merged.* ACCEPT captures the live task HEAD
(`src/loop_supervisor/supervisor.py:1443-1447`), and merging compares the worktree only with that
capture (`src/loop_supervisor/supervisor.py:1484-1512`). So the head merged is the one
`verify_builder_commit` returned if and only if the task HEAD is at ACCEPT where it was verified
(`Runs.EveryMergeIsReviewedOnce`). An auditor or a verification command that commits has a commit
merged that no report was verified at (`Reviews.MovedHeadIsAccepted`, `Reviews.CapturedHeadIsMerged`,
`Witnesses.UnverifiedHeadIsMerged`). In a run whose documents all stay readable this cannot happen.

*What stays reachable.* The supervisor's own commands lose nothing. An agent is free to rewrite its
branch, and `verify_builder_commit` does not compare with the head verified before
(`src/loop_supervisor/git.py:359-425`). No commit goes out of reach if and only if no agent leaves an
old tip of its branch behind (`Runs.RunsConserveWork`); `Witnesses.AmendedCommitIsLost` amends one.

*When the lock is released.* The docstring of `close()` says that the lock is never released while a
transition may be mutating (`src/loop_supervisor/runtime.py:1240-1245`). The code keeps that if and
only if no transition is begun while a `close()` is past its wait and not yet done
(`SessionThreads.LockOutlivesTransition`, `SessionThreads.GapBreaks`). The docstring of `advance()`
describes a guarded write-back of the run state (`src/loop_supervisor/runtime.py:1028-1050`), whose
guard never passes (`SessionThreads.AdvanceNeverStores`); this is harmless because the supervisor
changes the same object.

*What the reset table permits.* On transitions out of creating_worktree the history checker lets two
counters drop to 0 (`src/loop_supervisor/read_model/history.py:49-78`). The supervisor's code resets them
there, but a run that can be read back has nothing left to reset by then: those four rows are idle
(`ResetTable.TableAtRest`). All other rows are used, and no transition outside the table lowers a counter.

*When a run ends.* `run()` ends if the end of the run is at last saved (`RunLoop.FinishesBy`);
`Termination.LostFinishRepeats` shows that this is needed.

One hypothesis is taken from the documentation: `stop_server()` and `close()` are not called while
`start_server()` is in progress, as the session's concurrency contract
(`src/loop_supervisor/runtime.py:113-118`) covers only calls in flight after it.

## Model

| member | source | states |
|---|---|---|
| `StateReader.FromDict` | src/loop_supervisor/state.py:389-447 | Reading is the sequence of the source's validators, ended by the first complaint; it gives a state exactly for the documents the declarative rules accept, and that state writes the same document again. |
| `StateReader.ValidateVerificationResult` | src/loop_supervisor/state.py:590-651 | The loop over the commands accepts exactly the consistent summaries. |
| `StateReader.ValidateNestedResults` | src/loop_supervisor/state.py:561-587 | Role results, completed task, verification and task identity across roles are accepted exactly by the rules. |
| `StateReader.ValidateTaskIdentity` | src/loop_supervisor/state.py:709-747 | Accepts exactly all four identity fields, non-empty, with their checkpoints, or none of either. |
| `StateReader.ValidateEffectivePhase` | src/loop_supervisor/state.py:977-1125 | The branches by phase, with their early returns, accept exactly what the phase requires. |
| `StateReader.ValidateRetainedQuestion` | src/loop_supervisor/state.py:803-820 | Accepts a retained question exactly as answered guidance of the phase it is for. |
| `StateReader.ValidatePhaseInvariants` | src/loop_supervisor/state.py:750-800 | Error record, decision, phase and question are accepted exactly by the rules, in the source's order. |
| `Guarantees.HeaderIsRead` | src/loop_supervisor/state.py:709-747 | Of every document that is read: header, limits and checkpoints are complete, counts are not negative, and the task has all its parts and checkpoints or none. |
| `Guarantees.ResultsAreRead` | src/loop_supervisor/state.py:561-651 | Every result that is read keeps its contract; builder and auditor name the planner's task; a verification record is ok exactly if its command exited 0 in time. |
| `Guarantees.QuestionIsRead` | src/loop_supervisor/state.py:750-820 | A question that is read fits its kind; outside awaiting_input only answered guidance of the phase is kept; a failure says where it is retried, exactly if it is. |
| `Guarantees.PhaseIsRead` | src/loop_supervisor/state.py:977-1080 | What each phase before the build finds: plan, intents, decision, question and answer that belong together. |
| `Guarantees.BuildIsRead` | src/loop_supervisor/state.py:1080-1125 | After the build: the recorded head is the one reported and checked out, the commands recorded are the ones configured, and what is to be merged is that head, on an ACCEPT. |
| `Decisions.SlugifyIsSlug` | src/loop_supervisor/decisions.py:21-23 | A slug is never empty and has only lower-case letters, digits and dashes, for every title. |
| `Names.SlugKeepsLetters` | src/loop_supervisor/decisions.py:21-23 | For every title: letters and digits survive in lower case and in order, separated by single dashes; a title without any becomes "decision". |
| `Names.SlugStays` | src/loop_supervisor/decisions.py:21-23 | What is a slug already is left as it is. |
| `Names.SanitizedIsClean` | src/loop_supervisor/git.py:37-42 | For every task id: letters, digits and underscores survive in order, the result neither begins nor ends with a dash or dot, and is empty exactly if there are none. |
| `Names.CleanIdStays` | src/loop_supervisor/git.py:37-42 | A clean id is left as it is, so different clean ids never share a branch or directory. |
| `Names.RunBecomesDash` | src/loop_supervisor/git.py:37-42 | Each maximal run of disallowed characters becomes one dash, and nothing else changes. |
| `Names.AdrNamesAre` | src/loop_supervisor/decisions.py:24-40 | The names allowed for ADR files are exactly four digits, a dash, slug characters and the extension. |
| `Text.StripIsExact` | src/loop_supervisor/supervisor.py:1650-1690 | Stripping takes white space off both ends, all of it, and nothing else. |
| `Decisions.NextAdrNumberIsNext` | src/loop_supervisor/decisions.py:123-135 | The next number is one above the largest number in use, and between 1 and 10000. |
| `Decisions.FindNextAdrNumber` | src/loop_supervisor/decisions.py:123-135 | The loop over the directory computes that number, whatever the order of the names. |
| `Decisions.GeneratedNameIsFree` | src/loop_supervisor/decisions.py:69-135 | The target chosen for a decision has an allowed name if and only if the next number still has four digits, and then no file of that name exists. |
| `Resume.DriftIsOneLine` | src/loop_supervisor/supervisor.py:388-435 | The status drift allowed while a decision is being recorded is exactly one added line, counted as a multiset, in both directions. |
| `Resume.StoppedRunResumes` | src/loop_supervisor/supervisor.py:300-469 | For a current document of any phase, resume validation accepts if and only if the integration worktree is clean and the task branch, where that is checked, descends from its base. |
| `Resume.ResumeIsExact` | src/loop_supervisor/supervisor.py:300-469 | For any readable document, whatever the repository has become: resume accepts if and only if it is the same repository, clean and only grown, and the task worktree is on its branch at the recorded HEAD above its base with the same status or exactly the ADR gained that was about to be written; in cleanup, if what is gone may be gone. |
| `RepositoryFacts.ReachesStays` | src/loop_supervisor/git.py:152-156 | Ancestry between two commits is the same in every larger repository. |
| `RepositoryFacts.AncestorIsOlder` | src/loop_supervisor/git.py:152-156 | Ancestry has no cycles. |
| `RepositoryFacts.ReachesExactly` | src/loop_supervisor/git.py:152-156 | One commit reaches another if and only if there is a walk from commit to parent between them. |
| `RepositoryFacts.FirstParentsExactly` | src/loop_supervisor/git.py:459-479 | The first-parent chain leads from the commit to a root through first parents only. |
| `RepositoryFacts.FirstMergeIsFirst` | src/loop_supervisor/git.py:459-479 | The merge found again is the first listed one with the task head as second parent. |
| `RepositoryFacts.CreateKeeps` | src/loop_supervisor/git.py:228-331 | Creating or reconciling a worktree leaves a well-formed repository with the same commits, the worktree registered on its own branch, at its base, never on the integration branch. |
| `RepositoryFacts.MergeShape` | src/loop_supervisor/git.py:481-546 | A merge attempt does nothing, or leaves the integration worktree dirty and reports it, or adds exactly one commit; a conflict changes nothing. |
| `Supervision.Supervisor.Save` | src/loop_supervisor/supervisor.py:886-888 | A save refreshes the checkpoints and replaces the file, or changes neither. |
| `Supervision.Supervisor.Advance` | src/loop_supervisor/supervisor.py:515-596 | One call on the mutable state and repository, for every input and every failing save: commits and dirty worktrees stay; every reachable commit stays reachable if and only if no agent left its old tip behind; the limits are kept; from a state at rest, what is persisted can be read back if and only if the phase met its guard, and is then at rest again. |
| `Supervision.Supervisor.Run` | src/loop_supervisor/supervisor.py:807-884 | `run()` terminates for all agent results, answers and failures, if the end of the run is at last saved, at the end its iterations lead to; in memory and on disk are then the same unless an exception got out; limits are kept, no commit is lost, and none goes out of reach if agents keep their tips; a run that is done has no task left and has either reached its limit or been told that there is no more work. |
| `RunLoop.EndIsUnique` | src/loop_supervisor/supervisor.py:807-884 | What the environment does determines how and after how many iterations a run ends. |
| `RunLoop.StepFalls` | src/loop_supervisor/supervisor.py:830-884 | Every turn of the loop lowers the measure or consumes an answer. |
| `RunLoop.EndSustains` | src/loop_supervisor/supervisor.py:807-884 | Wherever the loop ends, by induction over its turns: the limits are kept, the commits are still there, and reachable if tips are kept. |
| `GitCommands.GitRepo.CreateOrReconcileTaskWorktree` | src/loop_supervisor/git.py:228-331 | Creates branch and worktree, reconciles an exact earlier attempt, or fails with the repository unchanged; loses nothing; on success the worktree is at its base on its own branch, never the integration branch. |
| `GitCommands.GitRepo.FindExistingMergeOf` | src/loop_supervisor/git.py:459-479 | The loop finds the first listed commit whose second parent is the task head. |
| `GitCommands.GitRepo.ReconcileOrMergeTask` | src/loop_supervisor/git.py:481-546 | Finds the merge again, makes it, or fails; loses nothing; on success from a ready repository the integration HEAD is the merge with exactly the two recorded parents. |
| `GitCommands.GitRepo.RemoveTaskWorktreeOnly` | src/loop_supervisor/git.py:552-579 | Only a clean worktree on the expected branch is removed, a missing one is fine; nothing is lost. |
| `GitCommands.GitRepo.DeleteTaskBranchOnly` | src/loop_supervisor/git.py:581-595 | Only a branch the integration HEAD reaches is deleted, a missing one is fine; every reachable commit stays reachable. |
| `Commands.RunCommands` | src/loop_supervisor/commands.py:112-141 | Without stopping, one result per command in order; with it, the run ends at the first failure and only there. |
| `Commands.SummarizeVerification` | src/loop_supervisor/supervisor.py:1904-1944 | The summary tells what happened: record k has the command, the exit code and the timeout of run k, is ok exactly if that run exited 0 in time, and the summary is ok exactly if every run did. |
| `PhaseSteps.PlanningLands` | src/loop_supervisor/supervisor.py:892-951 | From a settled state in planning, every outcome of the phase (success, failure, terminal failure) is a state the reader's rules for the phase it leads to accept. |
| `PhaseSteps.CreatingLands` | src/loop_supervisor/supervisor.py:965-1047 | From a settled state in creating_worktree, every outcome of the phase (success, failure, terminal failure) is a state the reader's rules for the phase it leads to accept. |
| `PhaseSteps.ArchitectingLands` | src/loop_supervisor/supervisor.py:1051-1144 | From a settled state in architecting, every outcome of the phase (success, failure, terminal failure) is a state the reader's rules for the phase it leads to accept. |
| `PhaseSteps.RecordingLands` | src/loop_supervisor/supervisor.py:1176-1204 | From a settled state in recording_decision, every outcome of the phase (success, failure, terminal failure) is a state the reader's rules for the phase it leads to accept. |
| `PhaseSteps.BuildingLands` | src/loop_supervisor/supervisor.py:1220-1342 | From a settled state in building, every outcome of the phase (success, failure, terminal failure) is a state the reader's rules for the phase it leads to accept. |
| `PhaseSteps.VerifyingLands` | src/loop_supervisor/supervisor.py:1346-1375 | From a settled state in verifying, every outcome of the phase (success, failure, terminal failure) is a state the reader's rules for the phase it leads to accept. |
| `PhaseSteps.AuditingLands` | src/loop_supervisor/supervisor.py:1393-1480 | From a settled state in auditing, every outcome of the phase (success, failure, terminal failure) is a state the reader's rules for the phase it leads to accept. |
| `PhaseSteps.MergingLands` | src/loop_supervisor/supervisor.py:1484-1512 | From a settled state in merging, every outcome of the phase (success, failure, terminal failure) is a state the reader's rules for the phase it leads to accept. |
| `PhaseSteps.CleanupWorktreeLands` | src/loop_supervisor/supervisor.py:1514-1559 | From a settled state in cleanup_worktree, every outcome of the phase (success, failure, terminal failure) is a state the reader's rules for the phase it leads to accept. |
| `PhaseSteps.CleanupBranchLands` | src/loop_supervisor/supervisor.py:1577-1612 | From a settled state in cleanup_branch, every outcome of the phase (success, failure, terminal failure) is a state the reader's rules for the phase it leads to accept. |
| `PhaseSteps.ResolveLands` | src/loop_supervisor/supervisor.py:1645-1711 | From a settled state in awaiting_input, for every kind of question and answer, every outcome of the phase (success, failure, terminal failure) is a state the reader's rules for the phase it leads to accept. |
| `PhaseSteps.PrepareLands` | src/loop_supervisor/supervisor.py:1146-1174 | A prepared decision has an allowed target and a digest of the very text to be written. |
| `PhaseSteps.SummaryIsValid` | src/loop_supervisor/state.py:590-651 | A summary of any command runs passes the reader's verification checks and lists the configured commands in order. |
| `PhaseSteps.OperatorReplanLands` | src/loop_supervisor/supervisor.py:1614-1641 | An operator's replan leads to a state planning may start from, within the replan limit. |
| `PhaseSteps.FinishLands` | src/loop_supervisor/supervisor.py:1583-1612 | The state after cleanup retains nothing of the task. |
| `Invariant.SavedIsAtRest` | src/loop_supervisor/state.py:389-447 | A settled state, once its checkpoints are refreshed from the repository, is accepted by the reader. |
| `Invariant.FailedIsAtRest` | src/loop_supervisor/state.py:750-800 | So is a failed one, with its question retained only if it is answered guidance. |
| `Invariant.DoneIsAtRest` | src/loop_supervisor/state.py:977-1125 | So is a finished one, which has no task. |
| `Closure.FailureRests` | src/loop_supervisor/supervisor.py:661-706 | An operational failure that is persisted can be read back, resumes in the phase that failed, and describes the repository. |
| `Closure.TerminalRests` | src/loop_supervisor/supervisor.py:708-742 | A terminal failure that is persisted can be read back. |
| `Closure.TransitionRests` | src/loop_supervisor/supervisor.py:598-659 | What the save after a transition persists can be read back, also when that save fails and the failure is persisted instead. |
| `Closure.SignalRests` | src/loop_supervisor/supervisor.py:564-575 | So can what is saved when input is required. |
| `Closure.CountedRetryRests` | src/loop_supervisor/supervisor.py:855-880 | Counting a retry keeps a persisted failure readable and its phase unchanged. |
| `Closure.ConclusionIsHonest` | src/loop_supervisor/supervisor.py:515-596 | `advance()` returns normally exactly if it has persisted something. |
| `Closure.AdvanceRests` | src/loop_supervisor/supervisor.py:515-742 | Every document one `advance()` call persists is again a state at rest, given the guard of its phase. |
| `Closure.PersistedLoadsExactly` | src/loop_supervisor/supervisor.py:515-742 | Writer/reader closure, exactly: from any state at rest and for any input, what is persisted can be read back if and only if the guard of the phase that ran held. |
| `Closure.PlanningRejects` | src/loop_supervisor/state.py:561-587 | A plan that renames a task with a REVISE or ACCEPT verdict on it is never readable. |
| `Closure.ArchitectingRejects` | src/loop_supervisor/state.py:654-691 | An untitled or empty decision put up for approval is never readable. |
| `Closure.BuildingRejects` | src/loop_supervisor/state.py:875-905 | A guided COMPLETE build that does not verify is never readable. |
| `Closure.VerifyingRejects` | src/loop_supervisor/state.py:1095-1110 | A task HEAD moved by verification is never readable. |
| `Closure.AuditingRejects` | src/loop_supervisor/state.py:1095-1110 | A task HEAD moved by the auditor is never readable, unless the verdict discards the build. |
| `Witnesses.RenamedTaskIsRejected` | src/loop_supervisor/state.py:580-587 | A concrete run: after REVISE and an operator's replan, a renamed task writes a document the reader rejects. |
| `Witnesses.UntitledDecisionIsRejected` | src/loop_supervisor/contracts.py:194-198 | A concrete run: the contract allows an empty title, the approval question does not. |
| `Witnesses.UnverifiedGuidedBuildIsRejected` | src/loop_supervisor/supervisor.py:1283-1303 | A concrete run: the answered guidance is kept beside a result it does not fit. |
| `Witnesses.MovedHeadIsRejected` | src/loop_supervisor/supervisor.py:505-508 | A concrete run: a verification command that commits makes the checkpoint differ from the verified head. |
| `Witnesses.UnverifiedHeadIsMerged` | src/loop_supervisor/supervisor.py:1443-1512 | A concrete run: the auditor commits and accepts, and two iterations merge a commit that was never verified. |
| `Witnesses.AmendedCommitIsLost` | src/loop_supervisor/git.py:359-425 | A concrete run: a commit amended after REVISE verifies, the document stays readable, and the commit reviewed before is out of reach. |
| `Outcomes.PlanningOutcomes` | src/loop_supervisor/supervisor.py:892-951 | A dispatch of planning ends the run if and only if the task limit is reached or there is no more work and no task in hand; a READY plan goes on, with the task in hand to its decision or its build; an agent's failure is recorded under its own kind. |
| `Outcomes.ReadyPlanIntendsWorktree` | src/loop_supervisor/supervisor.py:931-938 | A READY plan without a worktree goes to creating_worktree if and only if its id is usable and Git works, with path, branch and base intended as named by the id and the integration HEAD. |
| `Outcomes.ReadyPlanStartsTask` | src/loop_supervisor/supervisor.py:940-951 | A READY plan for the task in hand resets revisions and guidance and opens the decision it asks for. |
| `Outcomes.WorktreeMadeExactly` | src/loop_supervisor/git.py:228-331 | A worktree is made or reconciled if and only if names are as intended, the base exists, and either nothing is there or exactly an untouched earlier attempt is. |
| `Outcomes.CreatingOutcomes` | src/loop_supervisor/supervisor.py:965-1047 | The intended worktree becomes the task's if and only if Git works, it can stand, and provisioning works; otherwise the failure is recorded as one of Git or of provisioning and nothing else changes. |
| `Outcomes.ArchitectingOutcomes` | src/loop_supervisor/supervisor.py:1051-1144 | An answer to another question is a contract failure; a request for input asks the operator within the retry limit; a decision is put up for approval, with its own title and text, where approval is required. |
| `Outcomes.UnapprovedDecisionIsPrepared` | src/loop_supervisor/supervisor.py:1135-1144 | Where approval is not required, a decision is prepared at once with the architect's own ADR, if a name is left and the directory can be read. |
| `Outcomes.PreparationOutcomes` | src/loop_supervisor/supervisor.py:1146-1174 | A decision is prepared if and only if the directory can be read and the next number has four digits; what is fixed is an unused name with that number, and the digest of the ADR. |
| `Outcomes.RecordingOutcomes` | src/loop_supervisor/supervisor.py:1176-1204 | A decision is recorded if and only if its file can be written or has been; then the file holds the ADR, no other file or worktree has changed, and the raiser of the decision goes on. |
| `Outcomes.VerifiedExactly` | src/loop_supervisor/git.py:359-425 | `verify_builder_commit` returns a head if and only if the worktree is registered on the task branch at that head with an empty status, the report is 7 to 40 hex characters that name it alone, and the base does not reach it. |
| `Outcomes.BuildingOutcomes` | src/loop_supervisor/supervisor.py:1220-1342 | Building leads to verifying or auditing if and only if a COMPLETE report for the task leaves a clean worktree with the reported commit, new since the base, at its HEAD; that head is recorded. Blocked and incomplete builds ask for guidance and, once past the limit, escalate. |
| `Outcomes.VerifyingOutcomes` | src/loop_supervisor/supervisor.py:1346-1375 | Auditing is handed the summary of what the configured commands really did, and nothing else changes; a Git failure is recorded. |
| `Outcomes.AuditingOutcomes` | src/loop_supervisor/supervisor.py:1393-1480 | ACCEPT goes to merging with the two heads captured, REVISE to building and REPLAN to planning or its decision, each up to its limit; a verdict on another task is a contract failure. |
| `Outcomes.ApprovalOutcomes` | src/loop_supervisor/supervisor.py:1681-1711 | From a question of approval the decision is recorded if and only if the stripped, lower-cased answer is "y", "yes" or "approve" (and it can be prepared); any other answer asks the operator for input to the architect, with no ADR intended. |
| `Outcomes.GuidanceOutcomes` | src/loop_supervisor/supervisor.py:1645-1680 | "replan" plans again within the limit; other guidance goes to the builder; an escalation ends the run on "abandon" and asks again on anything else. |
| `Outcomes.InputOutcomes` | src/loop_supervisor/supervisor.py:1645-1711 | Without an answer nothing changes; input for the architect goes back to architecting with the answer kept. |
| `Outcomes.MergeMovesExactly` | src/loop_supervisor/git.py:481-546 | The integration HEAD moves if and only if both commits exist, the recorded head is an ancestor, no merge of the task is listed since, the worktree is clean, the task is not contained already, and the merge works. |
| `Outcomes.MergingOutcomes` | src/loop_supervisor/supervisor.py:1484-1512 | Merging leads to cleanup if and only if the captured heads are still there and the merge is found or made; a conflict and any other Git failure are recorded under their own kinds. |
| `Outcomes.CleanupWorktreeOutcomes` | src/loop_supervisor/supervisor.py:1514-1559 | The worktree goes if and only if the merge stands, with exactly the reviewed head as second parent and the branch where it was, and the worktree is clean and on its branch, or gone. |
| `Outcomes.CleanupBranchOutcomes` | src/loop_supervisor/supervisor.py:1577-1612 | The branch goes and one more task is accepted if and only if the merge stands and the branch is integrated and checked out nowhere, or gone; the completed task is the plan's own id, objective and rationale, and nothing else of the task is left. |
| `Outcomes.RetryOutcomes` | src/loop_supervisor/supervisor.py:744-805 | A retry goes back to the phase recorded if and only if the failure is recorded as retryable, with nothing else changed. |
| `Outcomes.FailureOutcomes` | src/loop_supervisor/supervisor.py:1718-1793 | Every failure is recorded with its kind, phase and message; `run()` retries it by itself if and only if it needs no repair (merge conflicts, decisions, and Git failures around worktrees do) and the retry budget is not used up. |
| `Outcomes.StatusOutcomes` | src/loop_supervisor/supervisor.py:515-659 | What the status returned says of a step: terminal, failed, without input, asking for input, or advanced. |
| `Outcomes.WrittenOutcomes` | src/loop_supervisor/supervisor.py:471-513 | What a step writes is what is in memory, with the body the dispatch left, and its checkpoints describe integration branch and task worktree as they are. |
| `Outcomes.RetriesStartAfresh` | src/loop_supervisor/supervisor.py:598-659 | The retry count goes to 0 exactly after a success that is not itself the retry and had an answer to go on with; a successful retry drops the error record. |
| `Outcomes.IterationOutcomes` | src/loop_supervisor/supervisor.py:830-884 | `run()` goes on by itself from a failure if and only if it is retryable without repair and the limit is not used up, with the attempt counted and saved; otherwise it goes on or ends as the outcome says. |
| `Outcomes.EndsOnlyFor` | src/loop_supervisor/supervisor.py:892-1711 | From a state at rest a run gives up for five reasons only (a task still active, three limits, the operator), and nothing gets out of a dispatch but an agent's unknown failure. |
| `Outcomes.MissingPartsGiveUp` | src/loop_supervisor/supervisor.py:965-1612 | A state without what its phase needs ends the run with the reason, in the order in which the phase looks. |
| `Progress.FaultFreeCycle` | src/loop_supervisor/supervisor.py:807-1612 | Progress over a whole cycle of iterations: a READY plan, a COMPLETE build that leaves its commit clean at the HEAD, and an ACCEPT, with nothing failing, bring the run back to planning with one more task accepted, exactly that head merged onto the previous integration HEAD, and worktree and branch gone. |
| `Progress.PlansWorktree` | src/loop_supervisor/supervisor.py:892-938 | The first iteration of a cycle: from planning to a worktree intended. |
| `Progress.BuildsTask` | src/loop_supervisor/supervisor.py:1220-1342 | Its third: from building on to verifying, or to auditing where nothing is configured, with the head verified. |
| `Progress.MergesTask` | src/loop_supervisor/supervisor.py:1484-1512 | Its merge: the integration branch gets one commit, of exactly the accepted head. |
| `Carrying.DispatchKeepsTask` | src/loop_supervisor/supervisor.py:892-1711 | Every phase, for any input: the task is whole or absent, its worktree on its own branch, and a terminal failure changes neither task nor count. |
| `Carrying.DispatchFollowsPlan` | src/loop_supervisor/supervisor.py:892-1711 | Every phase, for any input, leaves a complete plan or goes back to planning. |
| `Carrying.AdvanceCarries` | src/loop_supervisor/supervisor.py:515-742 | What one call persists keeps limits, task and plan, and an open failure is retried in the phase that failed, whether or not the document can be read back. |
| `Runs.NewRunIsSane` | src/loop_supervisor/supervisor.py:235-253 | A new run satisfies the invariant of whole runs. |
| `Runs.StepStaysSane` | src/loop_supervisor/supervisor.py:515-884 | The invariant survives every event, for any input: a step, a counted retry, a failed startup, a crash after a step's effect, a resume. |
| `Runs.RunsStayWithinBudget` | src/loop_supervisor/supervisor.py:892-938 | In every reachable state accepted tasks are within the limit, strictly while a task is in hand or intended; a finished run has no task, and has reached its limit or been told that there is no more work; retries are within their limit; an open failure is retried where it failed, never in a terminal phase. |
| `Runs.EveryMergeIsReviewedOnce` | src/loop_supervisor/git.py:459-546 | In every reachable state the integration branch is the start commit plus one two-parent merge per accepted task (and one for the task being cleaned up), each onto the previous one. Each merged head is the one `verify_builder_commit` returned for its task if and only if the task HEAD was still there at ACCEPT. |
| `Runs.EventConserves` | src/loop_supervisor/git.py:552-595 | No event takes a commit away or removes a worktree with uncommitted changes; the commits the refs reach stay reached if and only if the old tip of the task branch does. |
| `Runs.RunsConserveWork` | src/loop_supervisor/git.py:552-595 | Over every run, including failed merges, crashes, retries and cleanup, all commits stay, no dirty worktree is removed at any step, and no step puts a commit out of reach if and only if no agent leaves an old tip of its branch behind. |
| `Runs.StartupFailuresKeepPhase` | src/loop_supervisor/supervisor.py:744-790 | Any number of failed startups keeps the originally interrupted phase and everything but the record and the checkpoints. |
| `Approvals.OnlyRecordingWrites` | src/loop_supervisor/decisions.py:160-246 | No dispatch but one that records a decision changes a decisions directory, and that one by the ADR at hand, in its own task's worktree, under a new name. |
| `Approvals.DispatchKeepsConsent` | src/loop_supervisor/supervisor.py:1115-1144 | In every phase: a question of approval shows the ADR at hand, and where approval is required what is about to be recorded has a yes to its own question. |
| `Approvals.NoAdrWithoutApproval` | src/loop_supervisor/supervisor.py:1681-1711 | Over every run that requires approval, with crashes, retries and resumes: whenever an ADR is written, the operator's last answer was "y", "yes" or "approve" to the question that showed this ADR. |
| `Reviews.BuildVerifies` | src/loop_supervisor/supervisor.py:1283-1303 | A build leads on only with the head `verify_builder_commit` returned, which is the live one. |
| `Reviews.AcceptCapturesLiveHead` | src/loop_supervisor/supervisor.py:1443-1447 | ACCEPT captures the live task HEAD, whatever was verified. |
| `Reviews.AcceptedHeadIsVerified` | src/loop_supervisor/supervisor.py:1393-1447 | From any state at rest, the head accepted for merging is the verified one if and only if the audit did not move it. |
| `Reviews.MovedHeadIsAccepted` | src/loop_supervisor/supervisor.py:1393-1447 | From any state at rest in auditing, an ACCEPT after the HEAD was moved goes on to merging with a head that was not verified. |
| `Reviews.CapturedHeadIsMerged` | src/loop_supervisor/supervisor.py:1484-1512 | Merging compares the live HEAD only with what ACCEPT captured, and merges it. |
| `Readable.NewRunIsSound` | src/loop_supervisor/supervisor.py:235-253 | A new run with a valid header and options can be read back and is at rest. |
| `Readable.LoadsWhileGuardsHold` | src/loop_supervisor/supervisor.py:515-884 | From any sound state: everything on disk along a run can be read back if and only if every step that persists something meets its guard. |
| `Readable.EveryPersistedStateLoads` | src/loop_supervisor/state.py:389-447 | Writer/reader closure over whole runs, exactly: everything a new run ever has on disk can be read back if and only if every step that persists something meets the guard of its phase; then an error is recorded exactly in operational_failure and failed, and only verified heads are merged. |
| `Readable.ResumeStaysSound` | src/loop_supervisor/supervisor.py:300-469 | Resume validation restores what a crash may have broken: what it accepts is at rest again. |
| `Readable.SavedStepCanBeResumed` | src/loop_supervisor/supervisor.py:300-469 | After any saved step the run can be loaded and resumed if and only if the step met its guard, the integration worktree is clean and the task branch still descends from its base. |
| `Merges.NothingNewAtHead` | src/loop_supervisor/git.py:459-479 | Nothing is listed between a commit and itself, so no old merge is mistaken for a new one. |
| `Merges.AttemptIsExact` | src/loop_supervisor/git.py:481-546 | An attempt moves the integration HEAD at most once, from the recorded head to a commit with exactly the two recorded parents, and succeeds only with that commit at the HEAD. |
| `Merges.MergingKeepsLedger` | src/loop_supervisor/supervisor.py:1484-1512 | The merging phase adds at most one merge, of the accepted head, and records it. |
| `Merges.CleanupBranchKeepsLedger` | src/loop_supervisor/supervisor.py:1577-1612 | The accepted-task count catches up with the merge when, and only when, its cleanup finishes. |
| `Merges.EarlyLeavesMain` | src/loop_supervisor/supervisor.py:892-1480 | For any input, no other phase moves the integration HEAD or counts a task; entering merging fixes the recorded head as the current one. |
| `Merges.EffectKeepsLedger` | src/loop_supervisor/supervisor.py:515-596 | The account also holds for the document already on disk if the step is never saved. |
| `Merges.DispatchKeepsLedger` | src/loop_supervisor/supervisor.py:515-596 | The account of merges holds wherever a dispatch resumes, for any input. |
| `Conservation.DispatchConserves` | src/loop_supervisor/supervisor.py:515-596 | One dispatch, for any input and any edit an agent makes on its branch: the repository stays well-formed, all commits and dirty worktrees stay, and reachable commits stay reachable if and only if the old tip of the task branch does. |
| `Conservation.EditConservesExactly` | src/loop_supervisor/git.py:359-425 | An agent's edit, be it a new commit, an amended one or a reset, puts nothing out of reach if and only if the old tip is still reached. |
| `Conservation.SupervisorConserves` | src/loop_supervisor/supervisor.py:965-1612 | What the supervisor does by itself loses nothing at all. |
| `Conservation.MergeConserves` | src/loop_supervisor/git.py:481-546 | A merge attempt, successful or not, loses nothing. |
| `Conservation.RemoveConserves` | src/loop_supervisor/git.py:552-579 | Removing a worktree loses nothing, since only a clean one is removed. |
| `Conservation.DeleteConserves` | src/loop_supervisor/git.py:581-595 | Deleting a branch loses nothing, since the integration HEAD reaches its tip. |
| `Conservation.DeletedBranchWasReviewed` | src/loop_supervisor/supervisor.py:1514-1581 | A branch is deleted only if its tip is the reviewed head, second parent of the recorded merge, and an ancestor of the integration HEAD. |
| `Recovery.CreatingRecovers` | src/loop_supervisor/supervisor.py:965-1047 | A crash after worktree creation: resume is accepted and the phase gives the same result again. |
| `Recovery.RecordingRecovers` | src/loop_supervisor/decisions.py:160-246 | A crash after the ADR was written: resume allows exactly its status line, and writing it again changes nothing. |
| `Recovery.MergeIsFoundAgain` | src/loop_supervisor/git.py:459-546 | A merge that took place is found again, whatever a second `git merge` would do: retries return the same commit. |
| `Recovery.MergingRecovers` | src/loop_supervisor/supervisor.py:1484-1512 | A crash after the merge: resume is accepted and the same merge commit is recorded. |
| `Recovery.CleanupWorktreeRecovers` | src/loop_supervisor/supervisor.py:437-451 | A crash after the worktree was removed: resume is accepted and cleanup goes on. |
| `Recovery.CleanupBranchRecovers` | src/loop_supervisor/supervisor.py:453-469 | A crash after the branch was deleted: resume is accepted and the task is closed once. |
| `Recovery.CrashRefines` | src/loop_supervisor/supervisor.py:300-469 | Crash refinement for all five durable phases: the interrupted and resumed step ends with the repository, document and outcome of the uninterrupted one. |
| `Termination.DispatchDescends` | src/loop_supervisor/supervisor.py:892-1711 | Every phase leads lower in the order of tasks, replans, stage, revisions and phase, or fails at the same height; only an operator's answer leads up. |
| `Termination.IterationDescends` | src/loop_supervisor/supervisor.py:830-884 | Every iteration that goes on lowers the whole measure, unless an answer was given or the end of the run could not be saved. |
| `Termination.LostFinishRepeats` | src/loop_supervisor/supervisor.py:639-644 | The exception is real: if only the save of the end of the run keeps failing, the retry count is reset each time and the same state comes back. |
| `LockProtocol.StaleMeansNobody` | src/loop_supervisor/locking.py:163-188 | The identity test calls an owner stale if and only if no live process is that owner, whoever has its process ID now. |
| `LockProtocol.EventStaysSafe` | src/loop_supervisor/locking.py:542-833 | Every system call, fault, death, spawn with a reused process ID and reboot keeps the invariant of the lock. |
| `LockProtocol.MutualExclusion` | src/loop_supervisor/locking.py:542-833 | For any number of processes and any interleaving, of the live processes whose object holds a token at most one is not past its own unlink, and its token and identity are in the lock file. |
| `LockProtocol.OnlyDeadOrOwnRecordsGo` | src/loop_supervisor/locking.py:656-833 | A record leaves the file only by its owner's release with its own token, or by recovery when no live process is its owner. |
| `LockProtocol.OtherRecordsStay` | src/loop_supervisor/locking.py:656-833 | A record of the old schema goes only in a recovery the operator asked for; a record of another host, and what cannot be read, never. |
| `LockProtocol.JudgesExactly` | src/loop_supervisor/locking.py:163-188 | Recovery goes on if and only if the operator asked for it and no live process has the recorded identity or, in the old schema, the recorded process ID. |
| `LockProtocol.FreeLockIsTaken` | src/loop_supervisor/locking.py:542-603 | With no record in the way, an acquire that does not fail holds the lock, with its own record in the file. |
| `LockProtocol.UnownedRecordIsReplaced` | src/loop_supervisor/locking.py:656-764 | Recovery works: a record nobody owns gives way to the new one. |
| `LockProtocol.OwnedRecordIsLeft` | src/loop_supervisor/locking.py:656-764 | A record somebody owns, or that recovery was not asked for, is left alone and the call fails without a token. |
| `LockProtocol.ReleaseFrees` | src/loop_supervisor/locking.py:766-833 | A holder's release that does not fail leaves neither record nor token. |
| `LockProtocol.BindBindsOnce` | src/loop_supervisor/locking.py:605-654 | Binding fills in a null run ID of the holder's own record, and leaves any other. |
| `LockProtocol.FailedReleaseKeepsToken` | src/loop_supervisor/locking.py:766-833 | A holder's release forgets the token only once the record is gone; a failed one leaves both. |
| `LockProtocol.FailedCallEnds` | src/loop_supervisor/locking.py:542-833 | A system call that fails changes neither file nor identities, gives nobody a token and ends the operation; only a failing re-read is taken for a changed record. |
| `LockProtocol.ForeignRecordIsNotReleased` | src/loop_supervisor/locking.py:766-812 | A release that finds no record, or another's, drops the token and leaves the file alone. |
| `LockProtocol.EnvironmentActs` | src/loop_supervisor/locking.py:163-188 | What the model lets the environment do: spawn processes with identities of their own, kill them, reboot; none of it touches the lock file. |
| `LockProtocol.AcquireProgresses` | src/loop_supervisor/locking.py:542-603 | Under the guard every call brings `acquire` closer to its end; only a failing re-read sends it back. |
| `LockProtocol.OthersDoNotInterfere` | src/loop_supervisor/locking.py:259-293 | No other process can change the lock file or the progress of the one that has the guard. |
| `LockProtocol.SecondAcquireForgets` | src/loop_supervisor/locking.py:594-603 | A corner: a second `acquire` on an object that holds the lock fails and forgets the token, leaving the record. |
| `LockProtocol.TokenOutlivesRecord` | src/loop_supervisor/locking.py:813-833 | The window left out of mutual exclusion is real: after its own unlink a releasing process still has its token while another already holds the lock. |
| `LockObject.SupervisorLock.Acquire` | src/loop_supervisor/locking.py:542-603 | For any pattern of failing calls the retry loop ends; success means our record in the file in place of nothing or of a recoverable one, failure means no token; the record found, and the first call that fails, decide the outcome. |
| `LockObject.SupervisorLock.InspectExistingLock` | src/loop_supervisor/locking.py:656-739 | Only a stale local record is removed, and only on the operator's word; record and failing calls decide the result exactly. |
| `LockObject.SupervisorLock.Release` | src/loop_supervisor/locking.py:766-833 | A release that fails changes nothing; one that returns leaves no token and no record of ours; it fails if and only if a call it needs fails or the record cannot be read. |
| `LockObject.SupervisorLock.BindRunId` | src/loop_supervisor/locking.py:605-654 | Only a null run ID of our own record is changed; it succeeds if and only if the record is ours, unbound or bound to the same run, and no call it needs fails. |
| `Session.ConfirmServerStopped` | src/loop_supervisor/runtime.py:198-239 | At most three attempts, the last being the first that works or is interrupted; confirmed if and only if some attempt that is reached works. |
| `Session.RunSession.Enter` | src/loop_supervisor/runtime.py:781-904 | Entering succeeds exactly from the new state with lock and setup working; otherwise the lock is given back or its release is pending. |
| `Session.RunSession.StartServer` | src/loop_supervisor/runtime.py:935-1026 | From the first attempt to start on, the lock may not be released; a failed start spends at most three stops and hands its outcome over, not to be retried. |
| `Session.RunSession.StopServer` | src/loop_supervisor/runtime.py:729-777 | Never releases the lock, never forgets a confirmed stop, and hands over a retryable outcome. |
| `Session.RunSession.ConfirmCleanup` | src/loop_supervisor/runtime.py:1382-1409 | An outcome at hand is used up as it is unless it failed and may be retried. |
| `Session.RunSession.AnnotateOnce` | src/loop_supervisor/runtime.py:1368-1380 | The same exception is noted once. |
| `Session.RunSession.Close` | src/loop_supervisor/runtime.py:1192-1366 | The lock is released if and only if the release works and no server was attempted or its stop is confirmed; never while the server may run; with the lock still held it returns normally if and only if the exception it annotated is the one unwinding, and never after an interrupted release; a pending release spends no stop. |
| `Session.RunSession.StartAndExit` | src/loop_supervisor/runtime.py:906-996 | A failed start and the `close()` it triggers spend at most three stops together, and let the lock go if and only if the stop is confirmed and the release works. |
| `ServerStop.OpenCodeServer.CloseClient` | src/loop_supervisor/opencode.py:994-1067 | A client is let go if and only if its close was seen to end without error; at most one close of it runs at a time. |
| `ServerStop.OpenCodeServer.ReapPendingLauncher` | src/loop_supervisor/opencode.py:1069-1101 | An unverified launcher is let go if and only if it was reaped with its output closed. |
| `ServerStop.OpenCodeServer.SignalGroup` | src/loop_supervisor/opencode.py:1103-1159 | Which signals have been delivered afterwards, and whether anything failed, for every failing call: SIGKILL only after SIGTERM was acknowledged, and neither twice. |
| `ServerStop.OpenCodeServer.ReapOwner` | src/loop_supervisor/opencode.py:1103-1190 | Ownership is given up if and only if the shutdown is confirmed with pipes and output closed; otherwise it is marked unresolved, with exactly what has been signalled and closed on record. |
| `ServerStop.OpenCodeServer.JoinPump` | src/loop_supervisor/opencode.py:1192-1210 | The pump thread is forgotten if and only if it was seen not alive. |
| `ServerStop.OpenCodeServer.Stop` | src/loop_supervisor/opencode.py:989-1218 | A normal return means that owner, launcher, client, close attempt and pump are all gone; each stage is tried whatever became of the others, and exactly what was seen to end is let go; it raises if and only if some call that is needed fails. |
| `SessionThreads.EventStaysConsistent` | src/loop_supervisor/runtime.py:1028-1366 | Every interleaved step keeps the account of who has which lock and who may be in which state. |
| `SessionThreads.EventStaysQuiescent` | src/loop_supervisor/runtime.py:1251-1366 | A step breaks quiescence if and only if it begins a transition while some `close()` is past its wait. |
| `SessionThreads.LockOutlivesTransition` | src/loop_supervisor/runtime.py:1251-1366 | If no transition is begun while a `close()` is past its wait, the repository lock is released only after the transition in flight has ended. |
| `SessionThreads.GapBreaks` | src/loop_supervisor/runtime.py:1251-1283 | The condition is exact: wherever a transition is begun in the gap, the run up to there goes on to one in which the lock is released under the transition. |
| `SessionThreads.GapIsReal` | src/loop_supervisor/runtime.py:1251-1283 | A concrete interleaving that meets the gap. |
| `SessionThreads.ClosedStaysClosedForGood` | src/loop_supervisor/runtime.py:1093-1104 | A finishing transition never resurrects a session claimed by `close()`, with or without the gap. |
| `SessionThreads.DecisionEnds` | src/loop_supervisor/runtime.py:1308-1366 | A `close()` lets the repository lock go exactly if the server has stopped and the release works; an unconfirmed stop and a failed release are told apart. |
| `SessionThreads.CloseClaims` | src/loop_supervisor/runtime.py:1281-1315 | Through the state lock, a closed session is left alone, one whose server has been stopped goes on to the release, any other to the server. |
| `SessionThreads.ServerIsStopped` | src/loop_supervisor/runtime.py:729-779 | Through the server's own lock, a stop comes to what it comes to, and `stop_server()` remembers a confirmed one. |
| `SessionThreads.AdvanceEnds` | src/loop_supervisor/runtime.py:1028-1104 | One `advance()` call nobody interferes with: in flight exactly if the session was started, which it is again afterwards, also if the transition raises. |
| `SessionThreads.CompletionEnds` | src/loop_supervisor/runtime.py:1106-1189 | An iteration of `run_to_completion()` that raises ends at once; any other writes its document back exactly if the session is still started. |
| `SessionThreads.AdvanceNeverStores` | src/loop_supervisor/runtime.py:1077-1189 | A corner: the write-back guard of `advance()` never passes, as the state is still advancing when it is tested. |
| `SessionThreads.NoDeadlock` | src/loop_supervisor/runtime.py:1028-1366 | In no interleaving of driver, `stop_server` and `close` are all threads blocked. |
| `JsonShape.CheckShape` | src/loop_supervisor/read_model/json_reader.py:79-115 | The explicit-stack traversal ends on every value and accepts exactly the values whose recursively defined depth, node count, member counts and string sizes are within the limits. |
| `JsonShape.LimitsAreInclusive` | src/loop_supervisor/read_model/json_reader.py:17-20 | The limits are inclusive: a string of one mebibyte and an array of ten thousand items are the largest that fit. |
| `JsonShape.VisitValue` | src/loop_supervisor/read_model/json_reader.py:85-115 | One turn tests a value and pushes exactly its children, one level down. |
| `JsonShape.TurnKeepsCount` | src/loop_supervisor/read_model/json_reader.py:79-115 | A turn counts one node and keeps the verdict on the rest. |
| `Utf8.DecodeEncodedChar` | src/loop_supervisor/read_model/verification.py:349-351 | A whole encoded character decodes to itself. |
| `Utf8.CutCharDecodesToNothing` | src/loop_supervisor/read_model/verification.py:349-351 | A character cut short is passed over. |
| `Utf8.EncodingIsShortest` | src/loop_supervisor/read_model/verification.py:349-351 | Every character is counted with its shortest encoding. |
| `Truncate.PrefixForBytes` | src/loop_supervisor/read_model/record_detail.py:154-166 | Computes the longest prefix within the byte limit, the same one that cutting and decoding the encoding gives. |
| `Truncate.Utf8PrefixIsBytePrefix` | src/loop_supervisor/read_model/verification.py:349-351 | Cutting the encoding and decoding the rest gives that same prefix; no character is split. |
| `Truncate.TruncateRecord` | src/loop_supervisor/read_model/record_detail.py:137-151 | Computes the longest prefix within the byte and line limits, flagged exactly if the whole does not fit. |
| `Truncate.BoundRendered` | src/loop_supervisor/read_model/verification.py:329-346 | Computes the longest prefix within the byte and line limits, flagged exactly if the whole does not fit. |
| `Truncate.CutIsUnique` | src/loop_supervisor/read_model/record_detail.py:137-166 | There is only one such prefix and flag, so the two routines agree on every text. |
| `Truncate.SplitLinesIsExact` | src/loop_supervisor/read_model/record_detail.py:137-151 | Lines are cut at every boundary and nowhere else, CR LF in one; joined they are the text. |
| `Sse.IterSseJson` | src/loop_supervisor/sse.py:101-149 | The streaming loop yields exactly what the block specification says: split at blank lines, data joined, oversized blocks dropped, the unterminated tail given up. |
| `Sse.EventIsRead` | src/loop_supervisor/sse.py:101-149 | Round trip: an event written as data lines, with any blanks, line ends and comments between, is read as what its joined data parses to, if and only if that data with one byte more is within the cap, wherever the stream goes on. |
| `Sse.DataLineCarries` | src/loop_supervisor/sse.py:101-135 | A data line carries exactly what is between the blanks after the colon and the line terminators. |
| `Sse.OtherLinesCarryNothing` | src/loop_supervisor/sse.py:101-149 | Comments and other fields carry nothing, and only line terminators make a blank line. |
| `Sse.JoinOfConcat` | src/loop_supervisor/sse.py:104-108 | Payloads come joined by single newlines. |
| `Sse.RunSaysWhatStreamSays` | src/loop_supervisor/sse.py:101-149 | Line by line the parser says what the stream says block by block. |
| `Sse.LaterEventsUnaffected` | src/loop_supervisor/sse.py:101-149 | A dropped or malformed event never affects a later one. |
| `Sse.RetainedWithinCap` | src/loop_supervisor/sse.py:70-149 | What the parser retains, and the text it joins, never exceed the cap. |
| `Sse.PayloadsAgree` | src/loop_supervisor/sse.py:120-135 | The code agrees with section 9.2.6 of the HTML Living Standard exactly on payloads without a second leading space. |
| `StdoutPump.SplitOfConcat` | src/loop_supervisor/opencode.py:918-940 | Splitting at newlines is independent of where the stream is cut. |
| `StdoutPump.SplitIsExact` | src/loop_supervisor/opencode.py:918-940 | Splitting takes out the newlines and nothing else: put together again the pieces are the stream. |
| `StdoutPump.ReturnsAreStripped` | src/loop_supervisor/opencode.py:918-940 | Carriage returns at the end of a line go, all of them, and nothing else. |
| `StdoutPump.Append` | src/loop_supervisor/opencode.py:911-940 | One read appended: the buffer stays bounded and the lines it ends are recorded, the tail of an abandoned one excepted. |
| `StdoutPump.AtEof` | src/loop_supervisor/opencode.py:913-917 | An unterminated last line is recorded unless it is the end of an abandoned one. |
| `StdoutPump.Pump` | src/loop_supervisor/opencode.py:891-940 | For every way of cutting the stream, and whether the loop is left at its end or before: each recorded line is a whole line, only lines above the limit are missing, with none of those the record is the newline split, and the buffer never exceeds 65536 + 4096 bytes. |
| `StdoutPump.EndCountsAsNewline` | src/loop_supervisor/opencode.py:913-917 | An unterminated last line counts as if a newline had come, and nothing else does. |
| `StdoutPump.ThinnedSelects` | src/loop_supervisor/opencode.py:918-940 | What is recorded is a selection of the lines in order that leaves out only lines above the limit. |
| `History.Group` | src/loop_supervisor/read_model/history.py:223-245 | The first loop groups the entries by number and has no complaint exactly if every name is well formed. |
| `History.Validate` | src/loop_supervisor/read_model/history.py:246-266 | The second loop keeps, in ascending order, exactly the numbers with one valid record. |
| `History.LoadEnumerated` | src/loop_supervisor/read_model/history.py:210-275 | The loaded records are exactly the entries that stand, ascending; COMPLETE if and only if nothing is odd, double, invalid, missing or contradictory. |
| `History.StandsExactly` | src/loop_supervisor/read_model/history.py:223-266 | An entry stands if and only if its number is positive and no other entry's, and its record is readable with the number and phase of its name. |
| `History.FindGaps` | src/loop_supervisor/read_model/history.py:316-330 | No gap is reported if and only if the numbers run from 1 without one. |
| `History.FindContradictions` | src/loop_supervisor/read_model/history.py:333-365 | No contradiction is reported if and only if each record may follow its direct predecessor. |
| `History.CompareNeighbours` | src/loop_supervisor/read_model/history.py:333-386 | No complaint exactly if the one record may follow the other; always one for a break between phases, a clock that goes back, a counter decrease that no dispatch makes on the transition recorded, a guidance decrease in a build that did not advance, and a retry count that drops while retries go on. |
| `History.CompleteIsExplained` | src/loop_supervisor/read_model/history.py:210-275 | In a COMPLETE history every counter that goes down does so in a dispatch that really takes it from the one value to the other. |
| `ResetTable.TableIsExact` | src/loop_supervisor/read_model/history.py:49-78 | The reset table is exact: some dispatch from p to q takes a counter from m down to n if and only if n is 0 and the table lists that counter for p and q, whatever m was. |
| `ResetTable.TableAtRest` | src/loop_supervisor/read_model/history.py:49-78 | Of documents that can be read back the same holds without the rows for creating_worktree, where there is nothing left to reset. |
| `Recording.PhaseHistoryRecorder.OnAdvance` | src/loop_supervisor/history.py:122-169 | Numbers follow each other from the largest any name in the directory begins with; a failed write uses its number up. |
| `Recording.LoadedKeepsPlan` | src/loop_supervisor/state.py:977-1125 | Whatever can be loaded and goes on has the complete plan the agreement starts from. |
| `ResetTable.DispatchMoves` | src/loop_supervisor/read_model/history.py:49-78 | The reset table covers every decrease of a counter any dispatch can make, given a complete plan outside planning. |
| `Recording.StepFollows` | src/loop_supervisor/read_model/history.py:333-386 | For any input, the record of a step whose transition was saved may follow that of the step before. |
| `Recording.RecordsFollow` | src/loop_supervisor/history.py:143-209 | Along an uninterrupted run, readable or not, every record may follow the one before. |
| `Recording.UninterruptedHistoryIsComplete` | src/loop_supervisor/read_model/history.py:210-275 | Recorder/checker agreement: the history of every uninterrupted run with saved transitions and a monotone clock, whether or not its documents can be read back, loads as COMPLETE if and only if it has at least one and at most 10000 records. |
| `Recording.ChainedHistoryIsComplete` | src/loop_supervisor/read_model/history.py:210-275 | Records numbered from 1, each following the one before, in a directory that held none: the conditions of COMPLETE hold if and only if there is at least one record and no more than the loader looks at. |
| `Recording.RecordCalls` | src/loop_supervisor/history.py:143-169 | The recorder as a callback leaves one record per call, numbered in order, after what the directory held. |
| `Recording.RecordAndLoad` | src/loop_supervisor/history.py:143-209 | End to end: recorded by the one component and loaded by the other, the status is COMPLETE for 1 to 10000 steps, ABSENT for none. |

## Left out

- Resume.StoppedRunResumes: `Current` asks that the document on disk describe the repository as it is; a repository changed by others since is covered only by what `ResumeAccepts` itself checks.
- Recovery.CrashRefines: the effect of a durable phase is one atomic step; a crash inside `git worktree add` or in the middle of a merge is not modelled, and the repeated step is assumed to meet no new Git or file-system failure.
- Runs.RunsConserveWork: nobody but the supervisor and its agents writes to the repository, and an agent stays on the branch of its task worktree and moves no other; it may rewrite that branch at will.
- Runs.StepStaysSane: an exception that gets out of `advance()` ends the process; driving the same object further from memory, with an older document on disk, is not modelled.
- Supervision.Supervisor.Save: a save that fails leaves the checkpoints in memory as they were, where the source may have refreshed some of them before failing; the next save refreshes all of them.
- Supervision.Supervisor.Run: the `on_advance` callback is left out, its exceptions being discarded; the recorder behind it is modelled in `Recording`.
- StateReader.FromDict: the dictionary is typed already; type checks, exact field sets, schema version, time stamps and fields outside the model are left out, and which complaint comes first is computed but not specified.
- Provisioning succeeds or fails with a message; the command loop it runs is `Commands.RunCommands`. The best-effort removal of the scratch directory after a worktree is left out.
- LockProtocol.AcquireProgresses: a re-read that fails for ever keeps the loop going; `LockObject.SupervisorLock.Acquire` ends because finitely many calls fail.
- LockObject.SupervisorLock.Release: leaving the guard (unlocking and closing its descriptor) does not fail.
- Session.RunSession.StartServer: the session monitor and the permission policy are best-effort and left out; the messages of the exceptions are not modelled, only which exception is noted.
- Session.RunSession.Close: an interrupt inside the release counts as a release that has not happened; that the lock file may already be gone by then is not modelled.
- SessionThreads.NoDeadlock: locks are not re-entrant and each wait is fair or not at will; that every call ends in time is not claimed, only that someone can always move.
- ServerStop.OpenCodeServer.Stop: signals, processes and the HTTP client are outcomes of calls; that a launcher's acknowledgement tells the truth about the process group is assumed.
- StdoutPump.Pump: decoding to text, the ring of the last 500 lines, readiness detection and the partial line kept for diagnostics are left out; lines are byte strings.
- History.LoadEnumerated: file-name syntax and the validation of a record's own fields are one yes or no per entry; the contents of the diagnostics are not modelled, only whether there are any.
- Decisions.FindNextAdrNumber: files are names; directory listing errors are the ADR fault of a step.
- Truncate.TruncateRecord: the limits are parameters, where the source has constants.
- Rendering and digest of an ADR are taken to be injective: a digest is modelled by the text it is of.
- The flat fields of the run state are grouped into records (task, results, counters, intents, checkpoints); timestamps, prompts, log files, redaction and message truncation are left out. For what is read back, a reported message is any text that is not empty.
- Malformed agent output and its retries are folded into one reply per role, which satisfies its contract or is an error.
- Stripping and lower-casing treat the ASCII characters only.
- Names.AdrNamesAre: the source's pattern also matches before a final newline; a file name ending in one is never generated and is not modelled.
- A reported commit is resolved by unique prefix among commits; a ref named like a hash is not modelled.
- Approvals.NoAdrWithoutApproval: a new worktree starts without ADRs and agents write none; ADRs that a worktree inherits from its base, or that an agent writes by itself, are not modelled.
- Progress.FaultFreeCycle: the cycle is one without a decision, and place and branch of the task are free; that agents answer READY, COMPLETE and ACCEPT is assumed, as nothing makes them.
- Merge content, conflict detection and aborting: a merge adds a two-parent commit, fails with the repository restored, or reports that it could not be restored.
- Descriptor-level file access (no-follow flags, modes, symbolic links): files are replaced or created atomically.
- HTTP calls, the SSE reconnect thread, JSON and pydantic parsing, run discovery, lock observation, configuration, command line, doctor checks and terminal interface.
