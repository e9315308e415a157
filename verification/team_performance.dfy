/**
 * The per-assignee rollup of a sprint's tasks (the `teamMap` loop of
 * `computeSprintMetrics`).
 *
 * The specification is given in closed form: the distinct assignee keys in
 * first-encounter order (`Assignees`), and for each key its task count, DONE
 * count, story-point sum and the name carried by its first task. All of them
 * are defined by recursion on the last task, which is the order in which the
 * source's loop visits the tasks.
 */
module TeamPerformance {
  import opened Common
  import opened Tasks

  /** One entry of `teamPerformance`. */
  datatype TeamEntry = TeamEntry(id: string, name: string, points: int, tasks: nat, completed: nat)

  /** The distinct assignee keys of `ts`, in the order they are first met. */
  function Assignees(ts: seq<Task>): seq<string>
  {
    if ts == [] then []
    else
      var prev := Assignees(ts[..|ts| - 1]);
      var k := AssigneeKey(ts[|ts| - 1]);
      if k.Some? && k.value !in prev then prev + [k.value] else prev
  }

  /** Number of tasks assigned to `a`. */
  function TaskCount(ts: seq<Task>, a: string): nat
  {
    if ts == [] then 0
    else TaskCount(ts[..|ts| - 1], a) + (if AssigneeKey(ts[|ts| - 1]) == Some(a) then 1 else 0)
  }

  /** Number of DONE tasks assigned to `a`. */
  function DoneCount(ts: seq<Task>, a: string): nat
  {
    if ts == [] then 0
    else
      var t := ts[|ts| - 1];
      DoneCount(ts[..|ts| - 1], a) + (if AssigneeKey(t) == Some(a) && IsDone(t) then 1 else 0)
  }

  /** Sum of the story points of the tasks assigned to `a`. */
  function PointSum(ts: seq<Task>, a: string): int
  {
    if ts == [] then 0
    else
      var t := ts[|ts| - 1];
      PointSum(ts[..|ts| - 1], a) + (if AssigneeKey(t) == Some(a) then Points(t) else 0)
  }

  /** The display name of the first task assigned to `a` (`''` when it has none). */
  function FirstName(ts: seq<Task>, a: string): string
  {
    if ts == [] then ""
    else
      var p, t := ts[..|ts| - 1], ts[|ts| - 1];
      if AssigneeKey(t) == Some(a) && a !in Assignees(p) then OrEmpty(t.assigneeName)
      else FirstName(p, a)
  }

  function Entry(ts: seq<Task>, a: string): TeamEntry
  {
    TeamEntry(a, FirstName(ts, a), PointSum(ts, a), TaskCount(ts, a), DoneCount(ts, a))
  }

  /** The entries for the keys `ids`, in the order of `ids`. */
  function Entries(ts: seq<Task>, ids: seq<string>): seq<TeamEntry>
  {
    if ids == [] then [] else Entries(ts, ids[..|ids| - 1]) + [Entry(ts, ids[|ids| - 1])]
  }

  /** The specification of `teamPerformance`. */
  function Rollup(ts: seq<Task>): seq<TeamEntry>
  {
    Entries(ts, Assignees(ts))
  }

  /** Number of tasks that have an assignee. */
  function CountAssigned(ts: seq<Task>): nat
  {
    if ts == [] then 0
    else CountAssigned(ts[..|ts| - 1]) + (if AssigneeKey(ts[|ts| - 1]).Some? then 1 else 0)
  }

  /** Number of DONE tasks that have an assignee. */
  function CountDoneAssigned(ts: seq<Task>): nat
  {
    if ts == [] then 0
    else
      var t := ts[|ts| - 1];
      CountDoneAssigned(ts[..|ts| - 1]) + (if AssigneeKey(t).Some? && IsDone(t) then 1 else 0)
  }

  /** Story points of the tasks that have an assignee. */
  function AssignedPoints(ts: seq<Task>): int
  {
    if ts == [] then 0
    else
      var t := ts[|ts| - 1];
      AssignedPoints(ts[..|ts| - 1]) + (if AssigneeKey(t).Some? then Points(t) else 0)
  }

  function TotalTasks(es: seq<TeamEntry>): nat
  {
    if es == [] then 0 else TotalTasks(es[..|es| - 1]) + es[|es| - 1].tasks
  }

  function TotalCompleted(es: seq<TeamEntry>): nat
  {
    if es == [] then 0 else TotalCompleted(es[..|es| - 1]) + es[|es| - 1].completed
  }

  function TotalPoints(es: seq<TeamEntry>): int
  {
    if es == [] then 0 else TotalPoints(es[..|es| - 1]) + es[|es| - 1].points
  }

  predicate Distinct(ids: seq<string>)
  {
    forall j, k :: 0 <= j < k < |ids| ==> ids[j] != ids[k]
  }

  /**
   * The loop of the source: a dictionary keyed by assignee id, created on the
   * first task of each assignee and whose counters are incremented for every
   * task; `Object.values` then lists the entries in insertion order.
   */
  method RollupByAssignee(ts: seq<Task>) returns (team: seq<TeamEntry>)
    ensures team == Rollup(ts)
  {
    var teamMap: map<string, TeamEntry> := map[];
    var order: seq<string> := [];  // insertion order of the keys of teamMap
    for i := 0 to |ts|
      invariant order == Assignees(ts[..i])
      invariant forall k :: k in teamMap <==> k in order
      invariant forall k :: k in teamMap ==> teamMap[k] == Entry(ts[..i], k)
    {
      var t := ts[i];
      ghost var done, upto := ts[..i], ts[..i + 1];
      assert upto[..i] == done && upto[i] == t;
      if Truthy(t.assigneeId) {
        var a := t.assigneeId.value;
        if a !in teamMap {
          UnlistedKeyHasNoTasks(done, a);
          teamMap := teamMap[a := TeamEntry(a, OrEmpty(t.assigneeName), 0, 0, 0)];
          order := order + [a];
        }
        var e := teamMap[a];
        e := e.(points := e.points + Points(t), tasks := e.tasks + 1);
        if IsDone(t) {
          e := e.(completed := e.completed + 1);
        }
        teamMap := teamMap[a := e];
        assert teamMap[a] == Entry(upto, a);
        assert forall k :: k in teamMap && k != a ==> Entry(upto, k) == Entry(done, k);
      } else {
        assert forall k :: Entry(upto, k) == Entry(done, k);
      }
    }
    assert ts[..|ts|] == ts;
    team := [];
    for j := 0 to |order|
      invariant team == Entries(ts, order[..j])
    {
      assert order[..j + 1][..j] == order[..j];
      team := team + [teamMap[order[j]]];
    }
    assert order[..|order|] == order;
  }

  // ---------------------------------------------------------------------
  // Which keys appear, once each, in first-encounter order

  /** A key is listed exactly when some task is assigned to it. */
  lemma {:induction false} AssigneesAreTheAssignedKeys(ts: seq<Task>, a: string)
    ensures a in Assignees(ts) <==> exists i :: 0 <= i < |ts| && AssigneeKey(ts[i]) == Some(a)
  {
    if ts != [] {
      var p := ts[..|ts| - 1];
      AssigneesAreTheAssignedKeys(p, a);
      if a in Assignees(p) {
        var i :| 0 <= i < |p| && AssigneeKey(p[i]) == Some(a);
        assert ts[i] == p[i];
      }
      if exists i :: 0 <= i < |ts| && AssigneeKey(ts[i]) == Some(a) {
        var i :| 0 <= i < |ts| && AssigneeKey(ts[i]) == Some(a);
        if i < |p| {
          assert p[i] == ts[i];
        }
      }
    }
  }

  /** No key is listed twice. */
  lemma {:induction false} AssigneesDistinct(ts: seq<Task>)
    ensures Distinct(Assignees(ts))
  {
    if ts != [] {
      AssigneesDistinct(ts[..|ts| - 1]);
    }
  }

  /** The index of the first task assigned to `a`. */
  function FirstIndex(ts: seq<Task>, a: string): (i: nat)
    requires a in Assignees(ts)
    ensures i < |ts| && AssigneeKey(ts[i]) == Some(a)
    ensures forall j :: 0 <= j < i ==> AssigneeKey(ts[j]) != Some(a)
  {
    var p := ts[..|ts| - 1];
    AssigneesAreTheAssignedKeys(p, a);
    if a in Assignees(p) then FirstIndex(p, a) else |ts| - 1
  }

  /** Entries appear in the order in which their assignees are first met. */
  lemma {:induction false} AssigneesInFirstEncounterOrder(ts: seq<Task>)
    ensures forall j, k :: 0 <= j < k < |Assignees(ts)| ==>
      FirstIndex(ts, Assignees(ts)[j]) < FirstIndex(ts, Assignees(ts)[k])
  {
    if ts != [] {
      var p := ts[..|ts| - 1];
      AssigneesInFirstEncounterOrder(p);
      var A, B := Assignees(p), Assignees(ts);
      assert forall j :: 0 <= j < |A| ==> B[j] == A[j] && FirstIndex(ts, B[j]) == FirstIndex(p, A[j]);
      forall j, k | 0 <= j < k < |B|
        ensures FirstIndex(ts, B[j]) < FirstIndex(ts, B[k])
      {
        if k == |A| {
          AssigneesDistinct(ts);
          assert B[k] !in A;
        }
      }
    }
  }

  /** Each entry's name is the one carried by that assignee's first task. */
  lemma {:induction false} NameFromFirstTask(ts: seq<Task>, a: string)
    requires a in Assignees(ts)
    ensures FirstName(ts, a) == OrEmpty(ts[FirstIndex(ts, a)].assigneeName)
  {
    var p := ts[..|ts| - 1];
    if a in Assignees(p) {
      NameFromFirstTask(p, a);
    }
  }

  // ---------------------------------------------------------------------
  // The counters

  /** A key nobody is assigned to has all counters at zero. */
  lemma {:induction false} UnlistedKeyHasNoTasks(ts: seq<Task>, a: string)
    requires a !in Assignees(ts)
    ensures TaskCount(ts, a) == 0 && DoneCount(ts, a) == 0 && PointSum(ts, a) == 0
  {
    if ts != [] {
      UnlistedKeyHasNoTasks(ts[..|ts| - 1], a);
    }
  }

  /** An assignee never has more completed tasks than tasks. */
  lemma {:induction false} CompletedAtMostTasks(ts: seq<Task>, a: string)
    ensures DoneCount(ts, a) <= TaskCount(ts, a)
  {
    if ts != [] {
      CompletedAtMostTasks(ts[..|ts| - 1], a);
    }
  }

  /** Every listed assignee has at least one task. */
  lemma {:induction false} ListedKeyHasTasks(ts: seq<Task>, a: string)
    requires a in Assignees(ts)
    ensures TaskCount(ts, a) >= 1
  {
    var p := ts[..|ts| - 1];
    if a in Assignees(p) {
      ListedKeyHasTasks(p, a);
    }
  }

  lemma {:induction false} EntriesAt(ts: seq<Task>, ids: seq<string>)
    ensures |Entries(ts, ids)| == |ids|
    ensures forall j :: 0 <= j < |ids| ==> Entries(ts, ids)[j] == Entry(ts, ids[j])
  {
    if ids != [] {
      EntriesAt(ts, ids[..|ids| - 1]);
    }
  }

  /**
   * The rollup has one entry per assignee, in first-encounter order, whose
   * counters are that assignee's task count, DONE count and point sum, with
   * `completed <= tasks`.
   */
  lemma RollupEntries(ts: seq<Task>)
    ensures |Rollup(ts)| == |Assignees(ts)|
    ensures forall j :: 0 <= j < |Rollup(ts)| ==>
      var e := Rollup(ts)[j];
      e.id == Assignees(ts)[j] && e.name == FirstName(ts, e.id) &&
      e.tasks == TaskCount(ts, e.id) && e.completed == DoneCount(ts, e.id) &&
      e.points == PointSum(ts, e.id) &&
      1 <= e.tasks && e.completed <= e.tasks
  {
    var A := Assignees(ts);
    EntriesAt(ts, A);
    forall j | 0 <= j < |A|
      ensures 1 <= TaskCount(ts, A[j]) && DoneCount(ts, A[j]) <= TaskCount(ts, A[j])
    {
      ListedKeyHasTasks(ts, A[j]);
      CompletedAtMostTasks(ts, A[j]);
    }
  }

  /** Adding one task to the input moves the totals over distinct keys by that task's share. */
  lemma {:induction false} TotalsStep(ts: seq<Task>, t: Task, ids: seq<string>)
    requires Distinct(ids)
    ensures var k := AssigneeKey(t); var hit := k.Some? && k.value in ids;
      TotalTasks(Entries(ts + [t], ids)) == TotalTasks(Entries(ts, ids)) + (if hit then 1 else 0) &&
      TotalCompleted(Entries(ts + [t], ids)) == TotalCompleted(Entries(ts, ids)) + (if hit && IsDone(t) then 1 else 0) &&
      TotalPoints(Entries(ts + [t], ids)) == TotalPoints(Entries(ts, ids)) + (if hit then Points(t) else 0)
  {
    if ids != [] {
      var q, x := ids[..|ids| - 1], ids[|ids| - 1];
      assert Distinct(q);
      TotalsStep(ts, t, q);
      assert (ts + [t])[..|ts|] == ts;
      var k := AssigneeKey(t);
      if k.Some? && k.value in ids {
        if k.value == x {
          assert k.value !in q;
        } else {
          assert k.value in q by {
            var j :| 0 <= j < |ids| && ids[j] == k.value;
            assert j < |q| && q[j] == k.value;
          }
        }
      } else {
        assert !(k.Some? && k.value in q);
      }
    }
  }

  /**
   * The rollup partitions the assigned tasks: its `tasks` counters add up to
   * the number of assigned tasks, its `completed` counters to the number of
   * assigned DONE tasks, and its points to the points of the assigned tasks.
   */
  lemma {:induction false} RollupPartitionsAssignedTasks(ts: seq<Task>)
    ensures TotalTasks(Rollup(ts)) == CountAssigned(ts)
    ensures TotalCompleted(Rollup(ts)) == CountDoneAssigned(ts)
    ensures TotalPoints(Rollup(ts)) == AssignedPoints(ts)
  {
    if ts != [] {
      var p, t := ts[..|ts| - 1], ts[|ts| - 1];
      assert ts == p + [t];
      RollupPartitionsAssignedTasks(p);
      var A := Assignees(p);
      AssigneesDistinct(p);
      TotalsStep(p, t, A);
      var k := AssigneeKey(t);
      if k.Some? && k.value !in A {
        NewAssigneeTotals(p, t, k.value);
      }
    }
  }

  /** The step of the partition proof where the last task brings a new assignee. */
  lemma NewAssigneeTotals(p: seq<Task>, t: Task, a: string)
    requires AssigneeKey(t) == Some(a) && a !in Assignees(p)
    ensures var ts, A := p + [t], Assignees(p);
      Rollup(ts) == Entries(ts, A) + [Entry(ts, a)] &&
      TaskCount(ts, a) == 1 && DoneCount(ts, a) == (if IsDone(t) then 1 else 0) && PointSum(ts, a) == Points(t)
  {
    var ts, A := p + [t], Assignees(p);
    assert ts[..|p|] == p;
    UnlistedKeyHasNoTasks(p, a);
    assert Assignees(ts) == A + [a];
    assert (A + [a])[..|A|] == A;
  }

  /** With no tasks the rollup is empty. */
  lemma NoTasksNoEntries()
    ensures Rollup([]) == []
  {
  }

  /** The entry of a task's assignee after that task is added, when the assignee was already listed. */
  lemma KnownAssigneeStep(p: seq<Task>, t: Task, a: string)
    requires AssigneeKey(t) == Some(a) && a in Assignees(p)
    ensures Assignees(p + [t]) == Assignees(p)
    ensures var e := Entry(p, a);
      Entry(p + [t], a) == e.(points := e.points + Points(t), tasks := e.tasks + 1,
                              completed := e.completed + if IsDone(t) then 1 else 0)
  {
    assert (p + [t])[..|p|] == p;
  }

  /** The entry of a task's assignee after that task is added, when the assignee is new. */
  lemma NewAssigneeStep(p: seq<Task>, t: Task, a: string)
    requires AssigneeKey(t) == Some(a) && a !in Assignees(p)
    ensures Assignees(p + [t]) == Assignees(p) + [a]
    ensures Entry(p + [t], a) == TeamEntry(a, OrEmpty(t.assigneeName), Points(t), 1, if IsDone(t) then 1 else 0)
  {
    assert (p + [t])[..|p|] == p;
    UnlistedKeyHasNoTasks(p, a);
  }

  /**
   * Two tasks for the same assignee, with 2 and 3 points, one of them DONE,
   * give a single entry with 5 points, 2 tasks and 1 completed.
   */
  lemma TwoTasksOneAssignee(t1: Task, t2: Task, id: string, name: string)
    requires t1.assigneeId == Some(id) && t2.assigneeId == Some(id) && id != ""
    requires t1.assigneeName == Some(name)
    requires t1.storyPoints == Some(2) && t2.storyPoints == Some(3)
    requires t1.status == DONE && t2.status == TODO
    ensures Rollup([t1, t2]) == [TeamEntry(id, name, 5, 2, 1)]
  {
    NewAssigneeStep([], t1, id);
    assert [] + [t1] == [t1] && [t1] + [t2] == [t1, t2];
    KnownAssigneeStep([t1], t2, id);
    assert Entries([t1, t2], [id]) == Entries([t1, t2], []) + [Entry([t1, t2], id)];
  }
}
