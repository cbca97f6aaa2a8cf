/**
  The home page's component state (client/src/pages/Home.jsx, lines 17-75):
  the task list, the statistics payload, one loading flag per fetch, and the
  log of HTTP requests the page has issued. Each fetch routine is split at its
  `await`: `Start…` runs up to the request (raising the loading flag) and
  `Finish…` runs the rest (storing the data on success, keeping the old data on
  failure, and lowering the flag in the `finally` block either way). Each
  socket handler is one atomic step: the list rewrite of the TaskList module,
  then one statistics refetch.
 */
module Home {
  import opened Wrappers
  import opened Tasks
  import TaskList

  /** The two read requests the page issues (`getTasks`, `getTaskStats`). */
  datatype Request = GetTasks | GetTaskStats

  /** The statistics payload; the page stores it without looking inside. */
  datatype TaskStats = TaskStats(countsByPriority: map<string, nat>)

  class HomePage {
    var tasks: seq<Task>
    var taskStats: Option<TaskStats>
    var loadingTasks: bool
    var loadingStats: bool
    var requests: seq<Request>

    /** The state hooks' initial values: no tasks, no statistics, both spinners on. */
    constructor ()
      ensures tasks == [] && taskStats == None
      ensures loadingTasks && loadingStats
      ensures requests == []
    {
      tasks := [];
      taskStats := None;
      loadingTasks := true;
      loadingStats := true;
      requests := [];
    }

    /** `fetchTasks` up to its `await`: spinner on, `getTasks` issued. */
    method StartFetchTasks()
      modifies this
      ensures loadingTasks
      ensures requests == old(requests) + [GetTasks]
      ensures tasks == old(tasks) && taskStats == old(taskStats) && loadingStats == old(loadingStats)
    {
      loadingTasks := true;
      requests := requests + [GetTasks];
    }

    /** `fetchTasks` after its `await`: the snapshot replaces the list on success only; spinner off either way. */
    method FinishFetchTasks(response: Settled<seq<Task>>)
      modifies this
      ensures !loadingTasks
      ensures tasks == (if response.Resolved? then response.value else old(tasks))
      ensures taskStats == old(taskStats) && loadingStats == old(loadingStats) && requests == old(requests)
    {
      match response {
        case Resolved(data) => tasks := data;
        case Rejected =>
      }
      loadingTasks := false;
    }

    /** `fetchStats` up to its `await`: spinner on, `getTaskStats` issued. */
    method StartFetchStats()
      modifies this
      ensures loadingStats
      ensures requests == old(requests) + [GetTaskStats]
      ensures tasks == old(tasks) && taskStats == old(taskStats) && loadingTasks == old(loadingTasks)
    {
      loadingStats := true;
      requests := requests + [GetTaskStats];
    }

    /** `fetchStats` after its `await`: the payload replaces the statistics on success only; spinner off either way. */
    method FinishFetchStats(response: Settled<TaskStats>)
      modifies this
      ensures !loadingStats
      ensures taskStats == (if response.Resolved? then Some(response.value) else old(taskStats))
      ensures tasks == old(tasks) && loadingTasks == old(loadingTasks) && requests == old(requests)
    {
      match response {
        case Resolved(data) => taskStats := Some(data);
        case Rejected =>
      }
      loadingStats := false;
    }

    /** A whole `fetchTasks` run whose request settles before anything else happens. */
    method FetchTasks(response: Settled<seq<Task>>)
      modifies this
      ensures !loadingTasks
      ensures tasks == (if response.Resolved? then response.value else old(tasks))
      ensures requests == old(requests) + [GetTasks]
      ensures taskStats == old(taskStats) && loadingStats == old(loadingStats)
    {
      StartFetchTasks();
      FinishFetchTasks(response);
    }

    /** A whole `fetchStats` run whose request settles before anything else happens. */
    method FetchStats(response: Settled<TaskStats>)
      modifies this
      ensures !loadingStats
      ensures taskStats == (if response.Resolved? then Some(response.value) else old(taskStats))
      ensures requests == old(requests) + [GetTaskStats]
      ensures tasks == old(tasks) && loadingTasks == old(loadingTasks)
    {
      StartFetchStats();
      FinishFetchStats(response);
    }

    /** The mount effect: both fetches are started, tasks first. */
    method Mount()
      modifies this
      ensures loadingTasks && loadingStats
      ensures requests == old(requests) + [GetTasks, GetTaskStats]
      ensures tasks == old(tasks) && taskStats == old(taskStats)
    {
      StartFetchTasks();
      StartFetchStats();
    }

    /** `taskCreated`: append the task, then request the statistics once. */
    method OnTaskCreated(newTask: Task)
      modifies this
      ensures tasks == TaskList.Created(old(tasks), newTask)
      ensures requests == old(requests) + [GetTaskStats] && loadingStats
      ensures taskStats == old(taskStats) && loadingTasks == old(loadingTasks)
    {
      tasks := TaskList.Created(tasks, newTask);
      StartFetchStats();
    }

    /** `taskUpdated`: replace the entries with the same `_id`, then request the statistics once. */
    method OnTaskUpdated(updatedTask: Task)
      modifies this
      ensures tasks == TaskList.Updated(old(tasks), updatedTask)
      ensures requests == old(requests) + [GetTaskStats] && loadingStats
      ensures taskStats == old(taskStats) && loadingTasks == old(loadingTasks)
    {
      tasks := TaskList.Updated(tasks, updatedTask);
      StartFetchStats();
    }

    /** `taskDeleted`: drop the entries with that `_id`, then request the statistics once. */
    method OnTaskDeleted(deletedTaskId: string)
      modifies this
      ensures tasks == TaskList.Deleted(old(tasks), deletedTaskId)
      ensures requests == old(requests) + [GetTaskStats] && loadingStats
      ensures taskStats == old(taskStats) && loadingTasks == old(loadingTasks)
    {
      tasks := TaskList.Deleted(tasks, deletedTaskId);
      StartFetchStats();
    }
  }

  /**
    The snapshot and the event stream are not ordered against each other: a
    `taskCreated` event handled while the snapshot request is still pending is
    overwritten when the snapshot arrives, and one handled after a snapshot that
    already holds the task leaves it listed twice.
   */
  method SnapshotRaces(snapshot: seq<Task>, newTask: Task) returns (early: seq<Task>, late: seq<Task>)
    requires newTask !in snapshot
    ensures early == snapshot && newTask !in early
    ensures TaskList.CountId(late, newTask.id) >= 2
  {
    var first := new HomePage();
    first.Mount();
    first.OnTaskCreated(newTask);
    first.FinishFetchTasks(Resolved(snapshot));
    early := first.tasks;

    var second := new HomePage();
    second.Mount();
    second.FinishFetchTasks(Resolved(snapshot + [newTask]));
    second.OnTaskCreated(newTask);
    TaskList.CreatedAddsOneEntryPerId(snapshot + [newTask], newTask);
    assert TaskList.ContainsId(snapshot + [newTask], newTask.id) by {
      assert (snapshot + [newTask])[|snapshot|] == newTask;
    }
    late := second.tasks;
  }
}
