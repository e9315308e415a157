/**
 * The derivations of the Sprint Snap page: which sprint is current, which
 * tasks belong to it, the progress figures and the fallbacks for the stored
 * sprint fields.
 */
module SprintSnap {
  import opened Common
  import opened Tasks
  import opened SprintMetrics
  import opened TeamPerformance

  /** A sprint as the page receives it as JSON: any field may be missing. */
  datatype SprintSummary = SprintSummary(
    id: string,
    velocity: Option<int>,
    health: Option<string>,
    burndownData: Option<seq<BurndownPoint>>,
    teamPerformance: Option<seq<TeamEntry>>
  )

  /** What the page shows once both lists have loaded. */
  datatype Page =
    | NoSprint
    | Snapshot(
        totalTasks: nat,
        completedTasks: nat,
        remaining: int,
        progress: int,
        velocity: int,
        health: string,
        burndownData: seq<BurndownPoint>,
        teamPerformance: seq<TeamEntry>)

  /** A sprint listing entry as `/api/sprints` serialises it. */
  function FromListing(v: SprintView): SprintSummary {
    SprintSummary(v.id, Some(v.velocity), v.health, v.burndownData, Some(v.teamPerformance))
  }

  /** `sprints?.[0]`: the first sprint of the list, if the list has loaded and is not empty. */
  function CurrentSprint(sprints: Option<seq<SprintSummary>>): Option<SprintSummary> {
    if sprints.Some? && |sprints.value| > 0 then Some(sprints.value[0]) else None
  }

  function InSprint(id: string): Task -> bool {
    (t: Task) => t.sprintId == Some(id)
  }

  /** `tasks.filter(t => t.sprintId === currentSprint.id)`, or `[]` without tasks or sprint. */
  function SprintTasks(tasks: Option<seq<Task>>, current: Option<SprintSummary>): (r: seq<Task>)
    ensures tasks.None? || current.None? ==> r == []
  {
    if tasks.None? || current.None? then [] else Filter(tasks.value, InSprint(current.value.id))
  }

  /** The page after loading: the current sprint's figures, or "No sprint found.". */
  function SprintPage(sprints: Option<seq<SprintSummary>>, tasks: Option<seq<Task>>): (p: Page)
    ensures p.NoSprint? <==> CurrentSprint(sprints).None?
    ensures p.Snapshot? ==> p.completedTasks + p.remaining == p.totalTasks && 0 <= p.remaining
    ensures p.Snapshot? ==>
      var ts := SprintTasks(tasks, CurrentSprint(sprints));
      p.totalTasks == |ts| && p.completedTasks == CountDone(ts) && p.progress == Progress(ts)
  {
    var current := CurrentSprint(sprints);
    if current.None? then NoSprint
    else
      var s := current.value;
      var ts := SprintTasks(tasks, current);
      Snapshot(|ts|, CountDone(ts), |ts| - CountDone(ts), Progress(ts),
               s.velocity.GetOr(0), s.health.GetOr("Unknown"),
               s.burndownData.GetOr([]), s.teamPerformance.GetOr([]))
  }

  // ---------------------------------------------------------------------
  // Properties

  /** The current sprint is the head of the list; there is none for a missing or empty list. */
  lemma CurrentIsFirst(sprints: Option<seq<SprintSummary>>)
    ensures CurrentSprint(sprints).Some? <==> sprints.Some? && sprints.value != []
    ensures CurrentSprint(sprints).Some? ==> CurrentSprint(sprints).value == sprints.value[0]
  {
  }

  /**
   * The sprint's tasks are exactly the loaded tasks carrying the current
   * sprint's id, each as often as it was loaded, in their original order.
   */
  lemma SprintTasksExact(tasks: seq<Task>, s: SprintSummary, t: Task)
    ensures var r := SprintTasks(Some(tasks), Some(s));
      (t in r <==> t in tasks && t.sprintId == Some(s.id)) && IsSubsequence(r, tasks)
    ensures multiset(SprintTasks(Some(tasks), Some(s)))[t] == if t.sprintId == Some(s.id) then multiset(tasks)[t] else 0
  {
    FilterMultiset(tasks, InSprint(s.id), t);
    FilterMembership(tasks, InSprint(s.id), t);
    FilterKeepsOrder(tasks, InSprint(s.id));
  }

  /**
   * Progress is 0 without sprint tasks, and otherwise the whole percentage
   * nearest to completed / total.
   */
  lemma SnapshotProgress(sprints: Option<seq<SprintSummary>>, tasks: Option<seq<Task>>)
    requires SprintPage(sprints, tasks).Snapshot?
    ensures var p := SprintPage(sprints, tasks);
      0 <= p.progress <= 100 &&
      (p.totalTasks == 0 ==> p.progress == 0) &&
      (p.totalTasks > 0 ==>
        2 * p.totalTasks * p.progress - p.totalTasks <= 200 * p.completedTasks < 2 * p.totalTasks * p.progress + p.totalTasks)
  {
  }

  /** Missing stored fields fall back to 0, 'Unknown' and empty lists; present ones are shown as they are. */
  lemma SnapshotFallbacks(sprints: seq<SprintSummary>, tasks: Option<seq<Task>>)
    requires sprints != []
    ensures var p, s := SprintPage(Some(sprints), tasks), sprints[0];
      p.Snapshot? &&
      p.velocity == (if s.velocity.None? then 0 else s.velocity.value) &&
      p.health == (if s.health.None? then "Unknown" else s.health.value) &&
      (s.burndownData.None? ==> p.burndownData == []) &&
      (s.burndownData.Some? ==> p.burndownData == s.burndownData.value) &&
      (s.teamPerformance.None? ==> p.teamPerformance == []) &&
      (s.teamPerformance.Some? ==> p.teamPerformance == s.teamPerformance.value)
  {
  }

  /**
   * For a sprint listed by `/api/sprints` the velocity and team fallbacks
   * never apply: the page shows the computed velocity and rollup.
   */
  lemma ListedSprintNeedsNoFallback(s: Sprint, rest: seq<SprintSummary>, tasks: Option<seq<Task>>)
    ensures var p := SprintPage(Some([FromListing(Metrics(s))] + rest), tasks);
      p.Snapshot? && p.velocity == Velocity(TasksOf(s)) && p.teamPerformance == Rollup(TasksOf(s))
  {
  }
}
