/**
 * The QuickFlow kanban board: grouping tasks into the status columns, the
 * drag-and-drop update, the create-form reset and the priority labels.
 */
module QuickFlow {
  import opened Common
  import opened Tasks

  const STATUS_COLUMNS: seq<string> := [TODO, IN_PROGRESS, REVIEW, DONE]
  const PRIORITIES: seq<string> := ["LOW", "MEDIUM", "HIGH"]

  function HasStatus(c: string): Task -> bool {
    (t: Task) => t.status == c
  }

  predicate KnownStatus(s: string) {
    s in STATUS_COLUMNS
  }

  function IsKnown(): Task -> bool {
    (t: Task) => KnownStatus(t.status)
  }

  /** The tasks shown in column `c`. */
  function Column(ts: seq<Task>, c: string): seq<Task> {
    Filter(ts, HasStatus(c))
  }

  /**
   * The `grouped` record: one empty list per status column, then each task
   * pushed onto the list of its status when that status has a column.
   */
  method GroupByStatus(tasks: seq<Task>) returns (grouped: map<string, seq<Task>>)
    ensures grouped.Keys == {TODO, IN_PROGRESS, REVIEW, DONE}
    ensures forall c :: c in grouped ==> grouped[c] == Column(tasks, c)
  {
    grouped := map[];
    for k := 0 to |STATUS_COLUMNS|
      invariant grouped.Keys == set j | 0 <= j < k :: STATUS_COLUMNS[j]
      invariant forall c :: c in grouped ==> grouped[c] == []
    {
      grouped := grouped[STATUS_COLUMNS[k] := []];
    }
    assert (set j | 0 <= j < 4 :: STATUS_COLUMNS[j]) == {TODO, IN_PROGRESS, REVIEW, DONE} by {
      assert STATUS_COLUMNS[0] == TODO && STATUS_COLUMNS[1] == IN_PROGRESS;
      assert STATUS_COLUMNS[2] == REVIEW && STATUS_COLUMNS[3] == DONE;
    }
    for i := 0 to |tasks|
      invariant grouped.Keys == {TODO, IN_PROGRESS, REVIEW, DONE}
      invariant forall c :: c in grouped ==> grouped[c] == Column(tasks[..i], c)
    {
      var task := tasks[i];
      ghost var done := tasks[..i];
      assert tasks[..i + 1] == done + [task];
      if task.status in grouped {
        grouped := grouped[task.status := grouped[task.status] + [task]];
      }
      forall c | c in grouped
        ensures grouped[c] == Column(done + [task], c)
      {
        FilterAppend(done, [task], HasStatus(c));
        assert Filter([task], HasStatus(c)) == if task.status == c then [task] else [];
      }
    }
    assert tasks[..|tasks|] == tasks;
  }

  /** The PUT request that `onDrop` sends. */
  datatype UpdateRequest = UpdateRequest(url: string, body: Task)

  /**
   * `onDrop(status)`: nothing without a dragged task or when the task already
   * has that status; otherwise a PUT of the task with its status replaced.
   */
  function OnDrop(dragged: Option<Task>, status: string): (r: Option<UpdateRequest>)
    ensures r.None? <==> dragged.None? || dragged.value.status == status
    ensures r.Some? ==> r.value.url == "/api/tasks/" + dragged.value.id
    ensures r.Some? ==> r.value.body.status == status && r.value.body != dragged.value
    ensures r.Some? ==> r.value.body.(status := dragged.value.status) == dragged.value
  {
    if dragged.None? || dragged.value.status == status then None
    else Some(UpdateRequest("/api/tasks/" + dragged.value.id, dragged.value.(status := status)))
  }

  /** The create-task form. */
  datatype TaskForm = TaskForm(
    title: string,
    description: string,
    status: string,
    priority: string,
    dueDate: string,
    assigneeId: string,
    boardId: string
  )

  /** The form's state when the page opens. */
  const INITIAL_FORM: TaskForm := TaskForm("", "", "TODO", "MEDIUM", "", "", "")

  /** The form after a create request: reset when it succeeded, kept (with the error shown) otherwise. */
  function AfterCreate(form: TaskForm, succeeded: bool): (f: TaskForm)
    ensures !succeeded ==> f == form
    ensures succeeded ==> f.status == TODO && f.priority == "MEDIUM"
    ensures succeeded ==> f.title == f.description == f.dueDate == f.assigneeId == f.boardId == ""
  {
    if succeeded then TaskForm("", "", "TODO", "MEDIUM", "", "", "") else form
  }

  /** `p.charAt(0) + p.slice(1).toLowerCase()`. */
  function PriorityLabel(p: string): (r: string)
    ensures |r| == |p|
    ensures p != [] ==> r[0] == p[0]
    ensures forall i :: 1 <= i < |p| ==> r[i] == LowerChar(p[i])
  {
    if p == [] then [] else [p[0]] + Lower(p[1..])
  }

  // ---------------------------------------------------------------------
  // Properties

  /** A task sits in column `c` exactly when its status is `c`; a task with another status is in no column. */
  lemma ColumnMembership(ts: seq<Task>, t: Task, c: string)
    ensures t in Column(ts, c) <==> t in ts && t.status == c
    ensures !KnownStatus(t.status) && KnownStatus(c) ==> t !in Column(ts, c)
  {
    FilterMembership(ts, HasStatus(c), t);
  }

  /** Within a column the tasks keep their relative order from the task list. */
  lemma ColumnKeepsOrder(ts: seq<Task>, c: string)
    ensures IsSubsequence(Column(ts, c), ts)
  {
    FilterKeepsOrder(ts, HasStatus(c));
  }

  /** The four columns together hold every task with a known status, once. */
  lemma {:induction false} ColumnSizesAddUp(ts: seq<Task>)
    ensures |Column(ts, TODO)| + |Column(ts, IN_PROGRESS)| + |Column(ts, REVIEW)| + |Column(ts, DONE)|
            == |Filter(ts, IsKnown())| <= |ts|
  {
    if ts != [] {
      ColumnSizesAddUp(ts[1..]);
    }
  }

  /** A successful create restores the form the page starts with. */
  lemma ResetRestoresInitialForm(form: TaskForm)
    ensures AfterCreate(form, true) == INITIAL_FORM
  {
  }

  /** Upper-casing a label gives back an all-capitals priority. */
  lemma LabelRoundTrip(p: string)
    requires forall i :: 0 <= i < |p| ==> UpperChar(p[i]) == p[i]
    ensures Upper(PriorityLabel(p)) == p
  {
    var r := PriorityLabel(p);
    forall i | 0 <= i < |p|
      ensures Upper(r)[i] == p[i]
    {
      if i > 0 {
        var c := p[i];
        assert UpperChar(LowerChar(c)) == UpperChar(c);
      }
    }
  }

  /** The three priorities are labelled "Low", "Medium" and "High". */
  lemma PriorityLabels()
    ensures PriorityLabel(PRIORITIES[0]) == "Low"
    ensures PriorityLabel(PRIORITIES[1]) == "Medium"
    ensures PriorityLabel(PRIORITIES[2]) == "High"
  {
    assert Lower("OW") == "ow";
    assert Lower("EDIUM") == "edium";
    assert Lower("IGH") == "igh";
  }
}
