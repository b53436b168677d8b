/** The structured results the four agent roles return, with the cross-field rules
    a result must satisfy before the supervisor looks at it. */
module Contracts {
  import opened Text

  datatype PlannerStatus = Ready | NoMoreWork
  datatype BuilderStatus = Complete | Incomplete | Blocked
  datatype Disposition = Accept | Revise | Replan
  datatype ArchitectStatus = Decided | NeedsInput

  datatype PlannerResult = PlannerResult(
    status: PlannerStatus,
    taskId: Option<string>,
    objective: Option<string>,
    rationale: Option<string>,
    acceptanceCriteria: seq<string>,
    decisionRequired: bool,
    decisionQuestion: Option<string>,
    decisionRationale: Option<string>)

  datatype BuilderResult = BuilderResult(
    taskId: string,
    objective: string,
    status: BuilderStatus,
    commit: Option<string>)

  datatype AuditorResult = AuditorResult(
    taskId: string,
    objective: string,
    disposition: Disposition,
    requiredChanges: seq<string>,
    decisionRequired: bool,
    decisionQuestion: Option<string>,
    decisionRationale: Option<string>)

  datatype Adr = Adr(title: string, context: string, decision: string, consequences: seq<string>)

  datatype ArchitectResult = ArchitectResult(
    status: ArchitectStatus,
    question: string,
    rationale: string,
    adr: Option<Adr>,
    inputRequest: Option<string>)

  predicate ValidPlanner(r: PlannerResult) {
    && (r.status.Ready? ==>
          && PresentNonEmpty(r.taskId) && PresentNonEmpty(r.objective) && PresentNonEmpty(r.rationale)
          && r.acceptanceCriteria != [])
    && (r.decisionRequired ==>
          r.status.Ready? && PresentNonEmpty(r.decisionQuestion) && PresentNonEmpty(r.decisionRationale))
  }

  predicate ValidBuilder(r: BuilderResult) {
    r.status.Complete? ==> PresentNonEmpty(r.commit)
  }

  predicate ValidAuditor(r: AuditorResult) {
    && (r.decisionRequired ==>
          r.disposition.Replan? && PresentNonEmpty(r.decisionQuestion) && PresentNonEmpty(r.decisionRationale))
    && (r.disposition.Revise? ==> r.requiredChanges != [])
  }

  predicate ValidArchitect(r: ArchitectResult) {
    && (r.status.Decided? ==> r.adr.Some?)
    && (r.status.NeedsInput? ==> PresentNonEmpty(r.inputRequest))
  }

  /** `check_task_identity`: the task id must match exactly, the objective must not be blank. */
  predicate SameTask(taskId: string, otherTaskId: string, otherObjective: string) {
    otherTaskId == taskId && Strip(otherObjective) != ""
  }
}
