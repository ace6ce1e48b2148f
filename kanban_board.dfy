/**
 * The board: the task list split into its three status columns, the counts
 * shown on the mobile tabs, the completion figure, the mobile column
 * selector and the new-task form toggle.
 */
module KanbanBoard {
  import opened Wrappers
  import opened Lists
  import opened Types

  /** `t => t.status === s`. */
  function HasStatus(s: Status): Task -> bool {
    (t: Task) => t.status == s
  }

  /** The tasks of one column: exactly the tasks with that status, in list order. */
  function ColumnTasks(tasks: seq<Task>, s: Status): (r: seq<Task>)
    ensures forall t :: t in r <==> t in tasks && t.status == s
    ensures forall i :: 0 <= i < |r| ==> r[i].status == s
  {
    Filter(tasks, HasStatus(s))
  }

  /** Splitting a list in two and building the columns is building the columns of each part and joining them. */
  lemma ColumnTasksConcat(a: seq<Task>, b: seq<Task>, s: Status)
    ensures ColumnTasks(a + b, s) == ColumnTasks(a, s) + ColumnTasks(b, s)
  {
    FilterConcat(a, b, HasStatus(s));
  }

  /** A task lands in the column of its own status and in no other. */
  lemma ExactlyOneColumn(tasks: seq<Task>, t: Task)
    requires t in tasks
    ensures t in ColumnTasks(tasks, t.status)
    ensures forall s :: s != t.status ==> t !in ColumnTasks(tasks, s)
  {
  }

  /**
   * The three columns together hold every task exactly as often as the list
   * does, so their lengths add up to the list's length.
   */
  lemma ColumnsPartition(tasks: seq<Task>)
    ensures multiset(ColumnTasks(tasks, Todo)) + multiset(ColumnTasks(tasks, InProgress))
      + multiset(ColumnTasks(tasks, Done)) == multiset(tasks)
    ensures |ColumnTasks(tasks, Todo)| + |ColumnTasks(tasks, InProgress)| + |ColumnTasks(tasks, Done)| == |tasks|
  {
    FilterPartition3(tasks, HasStatus(Todo), HasStatus(InProgress), HasStatus(Done));
  }

  /** A column is as long as the number of positions in the list that hold a task of its status. */
  lemma ColumnLength(tasks: seq<Task>, s: Status)
    ensures |ColumnTasks(tasks, s)| == |set i | 0 <= i < |tasks| && tasks[i].status == s|
  {
    FilterLength(tasks, HasStatus(s));
    assert Hits(tasks, HasStatus(s)) == set i | 0 <= i < |tasks| && tasks[i].status == s;
  }

  /** `getTaskCounts()`. */
  datatype Counts = Counts(todo: nat, inProgress: nat, done: nat)

  /**
   * Each tab's count is the length of the column it selects and the number
   * of tasks in the list with that status; the three add up to the list's
   * length.
   */
  function TaskCounts(tasks: seq<Task>): (c: Counts)
    ensures c.todo == |ColumnTasks(tasks, Todo)| && c.inProgress == |ColumnTasks(tasks, InProgress)|
    ensures c.done == |ColumnTasks(tasks, Done)|
    ensures c.todo == |set i | 0 <= i < |tasks| && tasks[i].status == Todo|
    ensures c.inProgress == |set i | 0 <= i < |tasks| && tasks[i].status == InProgress|
    ensures c.done == |set i | 0 <= i < |tasks| && tasks[i].status == Done|
    ensures c.todo + c.inProgress + c.done == |tasks|
  {
    ColumnsPartition(tasks);
    ColumnLength(tasks, Todo);
    ColumnLength(tasks, InProgress);
    ColumnLength(tasks, Done);
    Counts(|ColumnTasks(tasks, Todo)|, |ColumnTasks(tasks, InProgress)|, |ColumnTasks(tasks, Done)|)
  }

  /** The progress bar and percentage are rendered only for a non-empty list. */
  function ProgressShown(tasks: seq<Task>): (b: bool)
    ensures b <==> ColumnTasks(tasks, Todo) + ColumnTasks(tasks, InProgress) + ColumnTasks(tasks, Done) != []
  {
    ColumnsPartition(tasks);
    |tasks| > 0
  }

  /**
   * `Math.round(done / total * 100)` in exact arithmetic: the whole
   * percentage nearest to `100 * done / total`, halves rounded up.
   */
  function CompletionPercent(done: nat, total: nat): (r: nat)
    requires 0 < total && done <= total
    ensures 200 * done - total < 2 * total * r <= 200 * done + total
    ensures r <= 100
  {
    var r := (200 * done + total) / (2 * total);
    CompletionBounds(done, total, r);
    r
  }

  lemma MulLeftMono(a: nat, b: int, c: int)
    requires b <= c
    ensures a * b <= a * c
  {
    assert a * c - a * b == a * (c - b);
  }

  lemma CompletionBounds(done: nat, total: nat, r: nat)
    requires 0 < total && done <= total && r == (200 * done + total) / (2 * total)
    ensures 200 * done - total < 2 * total * r <= 200 * done + total
    ensures r <= 100
  {
    var x := 200 * done + total;
    var m := 2 * total;
    assert x == m * r + x % m && 0 <= x % m < m;
    if r > 100 {
      MulLeftMono(m, 101, r);
    }
  }

  /** Nothing done is 0%, everything done is 100%. */
  lemma CompletionEnds(total: nat)
    requires 0 < total
    ensures CompletionPercent(0, total) == 0
    ensures CompletionPercent(total, total) == 100
  {
    var r0 := CompletionPercent(0, total);
    if r0 > 0 {
      MulLeftMono(2 * total, 1, r0);
    }
    var r1 := CompletionPercent(total, total);
    if r1 < 100 {
      MulLeftMono(2 * total, r1, 99);
    }
  }

  /** More finished tasks never lower the completion figure. */
  lemma CompletionMonotone(d1: nat, d2: nat, total: nat)
    requires 0 < total && d1 <= d2 <= total
    ensures CompletionPercent(d1, total) <= CompletionPercent(d2, total)
  {
    var r1 := CompletionPercent(d1, total);
    var r2 := CompletionPercent(d2, total);
    if r1 > r2 {
      MulLeftMono(2 * total, r2 + 1, r1);
    }
  }

  /** The completion figure of a board, defined when the progress section is rendered. */
  function BoardCompletion(tasks: seq<Task>): (r: nat)
    requires ProgressShown(tasks)
    ensures r <= 100
  {
    CompletionPercent(TaskCounts(tasks).done, |tasks|)
  }

  /** A board with nothing done shows 0%, a board with everything done shows 100%. */
  lemma BoardCompletionEnds(tasks: seq<Task>)
    requires ProgressShown(tasks)
    ensures (forall i :: 0 <= i < |tasks| ==> tasks[i].status != Done) ==> BoardCompletion(tasks) == 0
    ensures (forall i :: 0 <= i < |tasks| ==> tasks[i].status == Done) ==> BoardCompletion(tasks) == 100
  {
    CompletionEnds(|tasks|);
    if forall i :: 0 <= i < |tasks| ==> tasks[i].status != Done {
      FilterNone(tasks, HasStatus(Done));
    }
    if forall i :: 0 <= i < |tasks| ==> tasks[i].status == Done {
      FilterAll(tasks, HasStatus(Done));
    }
  }

  /** The tasks the mobile layout shows: one column, the selected one, in list order. */
  function MobileTasks(tasks: seq<Task>, view: Status): (r: seq<Task>)
    ensures r == ColumnTasks(tasks, view)
    ensures forall t :: t in r <==> t in tasks && t.status == view
  {
    ColumnTasks(tasks, view)
  }

  class Board {
    var showNewTask: bool
    var mobileView: Status

    /** The form starts hidden and the mobile layout on the "To Do" column. */
    constructor()
      ensures !showNewTask && mobileView == Todo
    {
      showNewTask := false;
      mobileView := Todo;
    }

    /** "Add Task". */
    method OpenNewTask()
      modifies this
      ensures showNewTask && mobileView == old(mobileView)
    {
      showNewTask := true;
    }

    /** A mobile tab. */
    method SelectMobileView(view: Status)
      modifies this
      ensures mobileView == view && showNewTask == old(showNewTask)
    {
      mobileView := view;
    }

    /** The form's submit forwards its arguments unchanged and hides the form. */
    method SubmitNewTask(title: string, description: Option<string>) returns (call: TaskCreate)
      modifies this
      ensures call == TaskCreate(title, description)
      ensures !showNewTask && mobileView == old(mobileView)
    {
      call := TaskCreate(title, description);
      showNewTask := false;
    }

    /** The form's cancel only hides the form. */
    method CancelNewTask()
      modifies this
      ensures !showNewTask && mobileView == old(mobileView)
    {
      showNewTask := false;
    }
  }
}
