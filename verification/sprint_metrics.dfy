/**
 * `computeSprintMetrics`: the analytics a sprint listing carries on top of the
 * stored sprint record (progress, velocity, a burndown series and the
 * per-assignee rollup).
 *
 * Progress and velocity are expressions over the task list; the burndown is
 * filled by a counted loop and the rollup by a loop over a dictionary, so both
 * are methods proved against the specification functions below.
 */
module SprintMetrics {
  import opened Common
  import opened Tasks
  import opened TeamPerformance

  /** Milliseconds in a day: `1000 * 60 * 60 * 24`. */
  const DAY_MS: int := 86_400_000

  datatype BurndownPoint = BurndownPoint(day: int, remaining: int)

  /** A sprint as the store returns it, with its tasks included. */
  datatype Sprint = Sprint(
    id: string,
    startDate: Millis,
    endDate: Millis,
    velocity: Option<int>,
    health: Option<string>,
    burndownData: Option<seq<BurndownPoint>>,
    teamPerformance: Option<seq<TeamEntry>>,
    tasks: Option<seq<Task>>
  )

  /**
   * `{ ...sprint, progress, velocity, burndown, teamPerformance }`: the stored
   * fields, with the stored `velocity` and `teamPerformance` overwritten by the
   * computed ones.
   */
  datatype SprintView = SprintView(
    id: string,
    startDate: Millis,
    endDate: Millis,
    health: Option<string>,
    burndownData: Option<seq<BurndownPoint>>,
    tasks: Option<seq<Task>>,
    progress: int,
    velocity: int,
    burndown: seq<BurndownPoint>,
    teamPerformance: seq<TeamEntry>
  )

  /** `sprint.tasks || []`. */
  function TasksOf(s: Sprint): seq<Task> {
    s.tasks.GetOr([])
  }

  /**
   * `Math.round(completed / total * 100)`, or 0 without tasks: the whole
   * percentage nearest to the share of DONE tasks, halves rounded up.
   */
  function Progress(ts: seq<Task>): (p: int)
    ensures 0 <= p <= 100
    ensures |ts| == 0 ==> p == 0
    ensures |ts| > 0 ==> 2 * |ts| * p - |ts| <= 200 * CountDone(ts) < 2 * |ts| * p + |ts|
  {
    if |ts| == 0 then 0
    else
      var c, t := CountDone(ts), |ts|;
      RoundedPercent(c, t);
      (200 * c + t) / (2 * t)
  }

  lemma RoundedPercent(c: nat, t: nat)
    requires 0 < t && c <= t
    ensures var p := (200 * c + t) / (2 * t);
      0 <= p <= 100 && 2 * t * p - t <= 200 * c < 2 * t * p + t
  {
    var n, d := 200 * c + t, 2 * t;
    var p, r := n / d, n % d;
    assert n == d * p + r && 0 <= r < d;
    assert d * p == 2 * t * p;
    if p > 100 {
      MulMonotone(d, 101, p);
      assert false;
    }
    if p < 0 {
      MulMonotone(d, p, -1);
      assert false;
    }
  }

  lemma MulMonotone(a: int, x: int, y: int)
    requires a >= 0 && x <= y
    ensures a * x <= a * y
  {
    assert a * y - a * x == a * (y - x);
  }

  /** `tasks.reduce((sum, t) => sum + (t.storyPoints || 0), 0)`. */
  function Velocity(ts: seq<Task>): int {
    if ts == [] then 0 else Velocity(ts[..|ts| - 1]) + Points(ts[|ts| - 1])
  }

  /** The sprint length in days, rounded up: `Math.ceil((end - start) / DAY_MS)`. */
  function Days(start: Millis, end: Millis): (n: int)
    ensures DAY_MS * (n - 1) < end - start <= DAY_MS * n
  {
    -((start - end) / DAY_MS)
  }

  /** Number of DONE tasks whose due date is at or before `day`. */
  function DoneBy(ts: seq<Task>, day: Millis): nat {
    if ts == [] then 0
    else
      var t := ts[|ts| - 1];
      DoneBy(ts[..|ts| - 1], day) + (if IsDone(t) && t.dueDate.Some? && t.dueDate.value <= day then 1 else 0)
  }

  /** The `i`-th point of the burndown (0-based). */
  function PointAt(ts: seq<Task>, start: Millis, i: nat): BurndownPoint {
    BurndownPoint(i + 1, |ts| - DoneBy(ts, start + i * DAY_MS))
  }

  /** The burndown series: one point per sprint day, including the start day. */
  function Burndown(ts: seq<Task>, start: Millis, end: Millis): seq<BurndownPoint> {
    var days := Days(start, end);
    if |ts| == 0 || days < 0 then []
    else seq(days + 1, i requires 0 <= i <= days => PointAt(ts, start, i))
  }

  /** The burndown loop of the source. */
  method BuildBurndown(ts: seq<Task>, start: Millis, end: Millis) returns (burndown: seq<BurndownPoint>)
    ensures burndown == Burndown(ts, start, end)
  {
    burndown := [];
    var totalTasks := |ts|;
    if totalTasks > 0 {
      var days := Days(start, end);
      var i := 0;
      while i <= days
        invariant 0 <= i <= if days < 0 then 0 else days + 1
        invariant |burndown| == i
        invariant forall j :: 0 <= j < i ==> burndown[j] == PointAt(ts, start, j)
      {
        var day := start + i * DAY_MS;
        var completed := DoneBy(ts, day);
        burndown := burndown + [BurndownPoint(i + 1, totalTasks - completed)];
        i := i + 1;
      }
    }
  }

  /** The specification of `computeSprintMetrics`. */
  function Metrics(s: Sprint): SprintView {
    var ts := TasksOf(s);
    SprintView(s.id, s.startDate, s.endDate, s.health, s.burndownData, s.tasks,
               Progress(ts), Velocity(ts), Burndown(ts, s.startDate, s.endDate), Rollup(ts))
  }

  method ComputeSprintMetrics(sprint: Sprint) returns (r: SprintView)
    ensures r == Metrics(sprint)
  {
    var tasks := TasksOf(sprint);
    var progress := Progress(tasks);
    var velocity := Velocity(tasks);
    var burndown := BuildBurndown(tasks, sprint.startDate, sprint.endDate);
    var teamPerformance := RollupByAssignee(tasks);
    r := SprintView(sprint.id, sprint.startDate, sprint.endDate, sprint.health, sprint.burndownData,
                    sprint.tasks, progress, velocity, burndown, teamPerformance);
  }

  // ---------------------------------------------------------------------
  // Properties

  /** A sprint without tasks (or without a `tasks` field) has all-zero, empty metrics. */
  lemma NoTasksZeroMetrics(s: Sprint)
    requires s.tasks == None || s.tasks == Some([])
    ensures Metrics(s).progress == 0 && Metrics(s).velocity == 0
    ensures Metrics(s).burndown == [] && Metrics(s).teamPerformance == []
  {
  }

  /** The stored fields pass through; the stored velocity and rollup do not matter. */
  lemma MetricsKeepsStoredFields(s: Sprint, v: Option<int>, tp: Option<seq<TeamEntry>>)
    ensures var r := Metrics(s);
      r.id == s.id && r.startDate == s.startDate && r.endDate == s.endDate &&
      r.health == s.health && r.burndownData == s.burndownData && r.tasks == s.tasks
    ensures Metrics(s.(velocity := v, teamPerformance := tp)) == Metrics(s)
  {
  }

  /** Velocity is additive over a split of the task list. */
  lemma {:induction false} VelocityAppend(a: seq<Task>, b: seq<Task>)
    ensures Velocity(a + b) == Velocity(a) + Velocity(b)
  {
    if b == [] {
      assert a + b == a;
    } else {
      var b' := b[..|b| - 1];
      assert (a + b)[..|a + b| - 1] == a + b';
      assert (a + b)[|a + b| - 1] == b[|b| - 1];
      VelocityAppend(a, b');
    }
  }

  /** Velocity counts every task, whatever its status: changing a status leaves it unchanged. */
  lemma VelocityIgnoresStatus(ts: seq<Task>, i: nat, status: string)
    requires i < |ts|
    ensures Velocity(ts[i := ts[i].(status := status)]) == Velocity(ts)
  {
    var t := ts[i];
    var us := ts[i := t.(status := status)];
    assert ts == ts[..i] + [t] + ts[i + 1..];
    assert us == ts[..i] + [t.(status := status)] + ts[i + 1..];
    VelocityAppend(ts[..i] + [t], ts[i + 1..]);
    VelocityAppend(ts[..i], [t]);
    VelocityAppend(ts[..i] + [t.(status := status)], ts[i + 1..]);
    VelocityAppend(ts[..i], [t.(status := status)]);
    assert [t][..0] == [] && [t.(status := status)][..0] == [];
  }

  /** Story points of the tasks without an assignee. */
  function UnassignedPoints(ts: seq<Task>): int {
    if ts == [] then 0
    else
      var t := ts[|ts| - 1];
      UnassignedPoints(ts[..|ts| - 1]) + (if AssigneeKey(t).None? then Points(t) else 0)
  }

  /** The rollup's points together with the unassigned tasks' points make up the velocity. */
  lemma {:induction false} VelocitySplitsByAssignee(ts: seq<Task>)
    ensures Velocity(ts) == TotalPoints(Rollup(ts)) + UnassignedPoints(ts)
  {
    RollupPartitionsAssignedTasks(ts);
    AssignedPlusUnassigned(ts);
  }

  lemma {:induction false} AssignedPlusUnassigned(ts: seq<Task>)
    ensures Velocity(ts) == AssignedPoints(ts) + UnassignedPoints(ts)
  {
    if ts != [] {
      AssignedPlusUnassigned(ts[..|ts| - 1]);
    }
  }

  /** The velocity of three tasks with 3, no and 5 points is 8. */
  lemma VelocityExample(t1: Task, t2: Task, t3: Task)
    requires t1.storyPoints == Some(3) && t2.storyPoints == None && t3.storyPoints == Some(5)
    ensures Velocity([t1, t2, t3]) == 8
  {
    assert [t1, t2, t3][..2] == [t1, t2] && [t1, t2][..1] == [t1] && [t1][..0] == [];
    assert Points(t1) == 3 && Points(t2) == 0 && Points(t3) == 5;
    assert Velocity([t1]) == 3;
    assert Velocity([t1, t2]) == 3;
  }

  /** Completions up to a later day include those up to an earlier one. */
  lemma {:induction false} DoneByMonotone(ts: seq<Task>, d1: Millis, d2: Millis)
    requires d1 <= d2
    ensures DoneBy(ts, d1) <= DoneBy(ts, d2) <= CountDone(ts)
  {
    if ts != [] {
      DoneByMonotone(ts[..|ts| - 1], d1, d2);
    }
  }

  /**
   * The burndown has one point per day from the start day through the last
   * (rounded-up) day, labelled 1, 2, ...; it is empty without tasks or when
   * the sprint ends more than a day before it starts.
   */
  lemma BurndownShape(ts: seq<Task>, start: Millis, end: Millis)
    ensures var b, days := Burndown(ts, start, end), Days(start, end);
      (|ts| == 0 || days < 0 ==> b == []) &&
      (|ts| > 0 && days >= 0 ==> |b| == days + 1) &&
      (forall j :: 0 <= j < |b| ==> b[j].day == j + 1)
  {
  }

  /**
   * Every remaining count lies between the number of tasks not DONE and the
   * number of tasks.
   */
  lemma BurndownRemainingBounds(ts: seq<Task>, start: Millis, end: Millis)
    ensures var b := Burndown(ts, start, end);
      forall j :: 0 <= j < |b| ==> |ts| - CountDone(ts) <= b[j].remaining <= |ts|
  {
    var b := Burndown(ts, start, end);
    forall j | 0 <= j < |b|
      ensures |ts| - CountDone(ts) <= b[j].remaining <= |ts|
    {
      DoneByMonotone(ts, start + j * DAY_MS, start + j * DAY_MS);
    }
  }

  /** The remaining count never increases from one day to the next. */
  lemma BurndownNonIncreasing(ts: seq<Task>, start: Millis, end: Millis)
    ensures var b := Burndown(ts, start, end);
      forall j, k :: 0 <= j <= k < |b| ==> b[k].remaining <= b[j].remaining
  {
    var b := Burndown(ts, start, end);
    forall j, k | 0 <= j <= k < |b|
      ensures b[k].remaining <= b[j].remaining
    {
      DoneByMonotone(ts, start + j * DAY_MS, start + k * DAY_MS);
    }
  }

  /** Each DONE task is due at or before `day`. */
  ghost predicate AllDoneDueBy(ts: seq<Task>, day: Millis) {
    forall i :: 0 <= i < |ts| && IsDone(ts[i]) ==> ts[i].dueDate.Some? && ts[i].dueDate.value <= day
  }

  lemma {:induction false} DoneByAll(ts: seq<Task>, day: Millis)
    requires AllDoneDueBy(ts, day)
    ensures DoneBy(ts, day) == CountDone(ts)
  {
    if ts != [] {
      var p := ts[..|ts| - 1];
      assert AllDoneDueBy(p, day) by {
        forall i | 0 <= i < |p| && IsDone(p[i])
          ensures p[i].dueDate.Some? && p[i].dueDate.value <= day
        {
          assert p[i] == ts[i];
        }
      }
      DoneByAll(p, day);
    }
  }

  /**
   * When every DONE task falls due by the last sprint day, the burndown ends
   * at the number of tasks not DONE.
   */
  lemma BurndownEndsAtOpenTasks(ts: seq<Task>, start: Millis, end: Millis)
    requires |ts| > 0 && Days(start, end) >= 0
    requires AllDoneDueBy(ts, start + Days(start, end) * DAY_MS)
    ensures var b := Burndown(ts, start, end);
      |b| > 0 && b[|b| - 1].remaining == |ts| - CountDone(ts)
  {
    DoneByAll(ts, start + Days(start, end) * DAY_MS);
  }

  /**
   * A 7-day sprint with four tasks, two of them DONE and due on days 5 and 6,
   * is 50% done and burns down as 4, 4, 4, 4, 4, 3, 2, 2.
   */
  lemma SevenDaySprintExample(start: Millis, t1: Task, t2: Task, t3: Task, t4: Task)
    requires t1.status == DONE && t1.dueDate == Some(start + 5 * DAY_MS)
    requires t2.status == DONE && t2.dueDate == Some(start + 6 * DAY_MS)
    requires t3.status == TODO && t4.status == TODO
    ensures Progress([t1, t2, t3, t4]) == 50
    ensures Burndown([t1, t2, t3, t4], start, start + 7 * DAY_MS) ==
      [BurndownPoint(1, 4), BurndownPoint(2, 4), BurndownPoint(3, 4), BurndownPoint(4, 4),
       BurndownPoint(5, 4), BurndownPoint(6, 3), BurndownPoint(7, 2), BurndownPoint(8, 2)]
  {
    var ts := [t1, t2, t3, t4];
    assert ts[..3] == [t1, t2, t3] && [t1, t2, t3][..2] == [t1, t2] && [t1, t2][..1] == [t1] && [t1][..0] == [];
    assert IsDone(t1) && IsDone(t2) && !IsDone(t3) && !IsDone(t4);
    assert CountDone([t1]) == 1;
    assert CountDone([t1, t2]) == 2;
    assert CountDone([t1, t2, t3]) == 2;
    assert CountDone(ts) == 2;
    forall day: Millis
      ensures DoneBy(ts, day) == (if start + 5 * DAY_MS <= day then 1 else 0) + (if start + 6 * DAY_MS <= day then 1 else 0)
    {
      assert DoneBy([t1], day) == (if start + 5 * DAY_MS <= day then 1 else 0);
      assert DoneBy([t1, t2], day) == DoneBy([t1], day) + (if start + 6 * DAY_MS <= day then 1 else 0);
    }
    assert Days(start, start + 7 * DAY_MS) == 7;
  }
}
