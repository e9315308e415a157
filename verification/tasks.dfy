/** The task record as the pages and route handlers receive it from the store. */
module Tasks {
  import opened Common

  /** The four statuses the board knows; the store hands statuses over as strings. */
  const TODO := "TODO"
  const IN_PROGRESS := "IN_PROGRESS"
  const REVIEW := "REVIEW"
  const DONE := "DONE"

  datatype Task = Task(
    id: string,
    title: string,
    description: Option<string>,
    status: string,
    priority: string,
    storyPoints: Option<int>,
    dueDate: Option<Millis>,
    assigneeId: Option<string>,
    assigneeName: Option<string>,  // `assignee?.name`
    sprintId: Option<string>,
    boardId: string
  )

  predicate IsDone(t: Task) {
    t.status == DONE
  }

  /** `t.storyPoints || 0`: a missing estimate counts as no points. */
  function Points(t: Task): int {
    t.storyPoints.GetOr(0)
  }

  /** The assignee key the rollup groups by: `t.assigneeId` when it is truthy. */
  function AssigneeKey(t: Task): Option<string> {
    if Truthy(t.assigneeId) then t.assigneeId else None
  }

  /** Number of DONE tasks (`tasks.filter(t => t.status === 'DONE').length`). */
  function CountDone(ts: seq<Task>): (n: nat)
    ensures n <= |ts|
  {
    if ts == [] then 0 else CountDone(ts[..|ts| - 1]) + (if IsDone(ts[|ts| - 1]) then 1 else 0)
  }
}
