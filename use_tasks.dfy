/**
 * The tasks hook: the project's task list, refreshed from the backend and
 * changed locally only after the backend accepted a create, update or
 * delete. A failed call is logged and leaves the list as it was.
 */
module UseTasks {
  import opened Wrappers
  import opened Lists
  import opened Types

  /** `prev.map(t => t.id === taskId ? updated : t)`: every task with that id becomes `updated`, the rest stay in place. */
  function ReplaceTask(tasks: seq<Task>, taskId: string, updated: Task): (r: seq<Task>)
    ensures |r| == |tasks|
    ensures forall i :: 0 <= i < |tasks| && tasks[i].id == taskId ==> r[i] == updated
    ensures forall i :: 0 <= i < |tasks| && tasks[i].id != taskId ==> r[i] == tasks[i]
  {
    MapWhere(tasks, TaskHasId(taskId), Always(updated))
  }

  /** An update for an id that is not on the list changes nothing. */
  lemma ReplaceUnknownTask(tasks: seq<Task>, taskId: string, updated: Task)
    requires forall i :: 0 <= i < |tasks| ==> tasks[i].id != taskId
    ensures ReplaceTask(tasks, taskId, updated) == tasks
  {
    MapWhereNoHit(tasks, TaskHasId(taskId), Always(updated));
  }

  /** Replacing twice with the same server value is replacing once. */
  lemma ReplaceTaskTwice(tasks: seq<Task>, taskId: string, updated: Task)
    requires updated.id == taskId
    ensures ReplaceTask(ReplaceTask(tasks, taskId, updated), taskId, updated) == ReplaceTask(tasks, taskId, updated)
  {
    MapWhereTwice(tasks, TaskHasId(taskId), Always(updated));
  }

  /** `prev.filter(t => t.id !== taskId)`: no task with that id is left, every other task is kept. */
  function RemoveTask(tasks: seq<Task>, taskId: string): (r: seq<Task>)
    ensures |r| <= |tasks|
    ensures forall t :: t in r <==> t in tasks && t.id != taskId
  {
    Filter(tasks, Not(TaskHasId(taskId)))
  }

  /** Removal keeps the order: removing from a joined list is removing from each part. */
  lemma RemoveTaskConcat(a: seq<Task>, b: seq<Task>, taskId: string)
    ensures RemoveTask(a + b, taskId) == RemoveTask(a, taskId) + RemoveTask(b, taskId)
  {
    FilterConcat(a, b, Not(TaskHasId(taskId)));
  }

  /** Removing an id that is not on the list changes nothing. */
  lemma RemoveUnknownTask(tasks: seq<Task>, taskId: string)
    requires forall i :: 0 <= i < |tasks| ==> tasks[i].id != taskId
    ensures RemoveTask(tasks, taskId) == tasks
  {
    FilterAll(tasks, Not(TaskHasId(taskId)));
  }

  function TasksPath(projectId: string): string {
    "/api/projects/" + projectId + "/tasks"
  }

  function TaskPath(taskId: string): string {
    "/api/tasks/" + taskId
  }

  class TasksHook {
    const projectId: string
    var tasks: seq<Task>
    var loading: bool

    constructor(projectId: string)
      ensures this.projectId == projectId && tasks == [] && loading
    {
      this.projectId := projectId;
      tasks := [];
      loading := true;
    }

    /** Fetch: the server's list replaces the local one; loading ends on both paths. */
    method FetchTasks(reply: Reply<seq<Task>>) returns (request: Request<Ack>)
      modifies this
      ensures request == Get(TasksPath(projectId))
      ensures reply.Success? ==> tasks == reply.value
      ensures reply.Failure? ==> tasks == old(tasks)
      ensures !loading
    {
      request := Get(TasksPath(projectId));
      if reply.Success? {
        tasks := reply.value;
      }
      loading := false;
    }

    /** Create: the server's task is appended at the end; the existing tasks keep their order. */
    method CreateTask(title: string, description: Option<string>, reply: Reply<Task>) returns (request: Request<TaskCreate>)
      modifies this
      ensures request == Post(TasksPath(projectId), TaskCreate(title, description))
      ensures reply.Success? ==> tasks == old(tasks) + [reply.value]
      ensures reply.Failure? ==> tasks == old(tasks)
      ensures loading == old(loading)
    {
      request := Post(TasksPath(projectId), TaskCreate(title, description));
      if reply.Success? {
        tasks := tasks + [reply.value];
      }
    }

    /** Update: every task with the id is replaced by the server's value. */
    method UpdateTask(taskId: string, updates: TaskPatch, reply: Reply<Task>) returns (request: Request<TaskPatch>)
      modifies this
      ensures request == Patch(TaskPath(taskId), updates)
      ensures reply.Success? ==> tasks == ReplaceTask(old(tasks), taskId, reply.value)
      ensures reply.Failure? ==> tasks == old(tasks)
      ensures loading == old(loading)
    {
      request := Patch(TaskPath(taskId), updates);
      if reply.Success? {
        tasks := ReplaceTask(tasks, taskId, reply.value);
      }
    }

    /** Delete: every task with the id is dropped, the rest keep their order. */
    method DeleteTask(taskId: string, reply: Reply<Ack>) returns (request: Request<Ack>)
      modifies this
      ensures request == Delete(TaskPath(taskId))
      ensures reply.Success? ==> tasks == RemoveTask(old(tasks), taskId)
      ensures reply.Failure? ==> tasks == old(tasks)
      ensures loading == old(loading)
    {
      request := Delete(TaskPath(taskId));
      if reply.Success? {
        tasks := RemoveTask(tasks, taskId);
      }
    }
  }
}
