/** The task details screen: finding the routed task in the loaded list, projecting it into the
    edit form, the status buttons, and the update and delete requests. */
module TaskDetails {
  import opened Wrappers
  import opened Lists
  import opened Records
  import Api

  /** `tasks.find(t => t.id === id)`: the first task carrying the routed id. */
  function FindTask(tasks: seq<Task>, id: string): (r: Option<Task>)
    ensures r.None? <==> forall t :: t in tasks ==> t.id != id
    ensures r.Some? ==> r.value in tasks && r.value.id == id
  {
    FindFirst(tasks, HasId(id))
  }

  /** The edit form of a found task; a missing `owners` or `tags` becomes the empty list. */
  function FormOf(t: Task): (f: TaskForm)
    ensures f.name == t.name && f.projectId == t.projectId && f.teamId == t.teamId
    ensures f.timeToComplete == t.timeToComplete && f.status == t.status
    ensures f.owners == (if t.owners.Some? then t.owners.value else [])
    ensures f.tags == (if t.tags.Some? then t.tags.value else [])
  {
    TaskForm(t.name, t.projectId, t.teamId, t.owners.GetOr([]), t.timeToComplete, t.tags.GetOr([]), t.status)
  }

  /** A task updated with the values of a form, as the backend stores a full update. */
  function Updated(t: Task, f: TaskForm): Task {
    t.(name := f.name, projectId := f.projectId, teamId := f.teamId, owners := Some(f.owners),
      timeToComplete := f.timeToComplete, tags := Some(f.tags), status := f.status)
  }

  /** Saving an untouched form changes nothing, except that a missing list is stored as empty. */
  lemma UntouchedFormRoundTrip(t: Task)
    ensures Updated(t, FormOf(t)) == t.(owners := Some(t.owners.GetOr([])), tags := Some(t.tags.GetOr([])))
    ensures t.owners.Some? && t.tags.Some? ==> Updated(t, FormOf(t)) == t
  {
  }

  /** The four status buttons of the sidebar, in order. */
  const StatusButtons := [ToDo, InProgress, Completed, Blocked]

  /** `disabled={task?.status === status}`: without a task no button is disabled. */
  predicate ButtonDisabled(task: Option<Task>, status: string) {
    task.Some? && task.value.status == status
  }

  /** Exactly the button of the current status is disabled: one button for a known status, none otherwise. */
  lemma ExactlyCurrentDisabled(task: Option<Task>)
    ensures forall i, j :: 0 <= i < j < |StatusButtons| ==>
      !(ButtonDisabled(task, StatusButtons[i]) && ButtonDisabled(task, StatusButtons[j]))
    ensures (exists i :: 0 <= i < |StatusButtons| && ButtonDisabled(task, StatusButtons[i])) <==>
      task.Some? && task.value.status in StatusButtons
  {
    if task.Some? && task.value.status in StatusButtons {
      var i :| 0 <= i < |StatusButtons| && StatusButtons[i] == task.value.status;
      assert ButtonDisabled(task, StatusButtons[i]);
    }
  }

  /** The body of a status change: an object with the single field `status`. */
  function StatusUpdate(newStatus: string): (j: Api.Json)
    ensures j.JObject? && |j.fields| == 1 && j.fields[0] == ("status", Api.JString(newStatus))
  {
    Api.JObject([("status", Api.JString(newStatus))])
  }

  /** The screen's state for the routed task id. `formData` is `None` until a task was found. */
  class TaskDetailsState {
    const id: string
    var task: Option<Task>
    var formData: Option<TaskForm>
    var error: string

    constructor (routeId: string)
      ensures id == routeId && task.None? && formData.None? && error == ""
    {
      id := routeId;
      task := None;
      formData := None;
      error := "";
    }

    /** `loadTaskDetails` once `tasksAPI.getAll()` settled: a failed fetch and a missing task
        each leave their own message and keep the previous task; a found task and its form are set. */
    method LoadTaskDetails(fetched: Result<seq<Task>>)
      modifies this`task, this`formData, this`error
      ensures fetched.Err? ==> error == "Failed to load task details" && task == old(task) && formData == old(formData)
      ensures fetched.Ok? && FindTask(fetched.value, id).None? ==>
        error == "Task not found" && task == old(task) && formData == old(formData)
      ensures fetched.Ok? && FindTask(fetched.value, id).Some? ==>
        task == FindTask(fetched.value, id) && formData == Some(FormOf(task.value)) && error == old(error)
    {
      match fetched {
        case Err(_) =>
          error := "Failed to load task details";
        case Ok(tasks) =>
          var found := FindFirst(tasks, HasId(id));
          if found.Some? {
            task := found;
            formData := Some(FormOf(found.value));
          } else {
            error := "Task not found";
          }
      }
    }

    /** `handleStatusChange(newStatus)`: the request sent; nothing local changes until the reload. */
    method StatusChange(newStatus: string, token: Option<string>) returns (req: Api.Request)
      ensures req == Api.UpdateRequest(id, StatusUpdate(newStatus), token)
      ensures req.config.body == Some(StatusUpdate(newStatus))
    {
      req := Api.UpdateRequest(id, Api.JObject([("status", Api.JString(newStatus))]), token);
    }

    /** `handleUpdate`: the whole form is sent (an empty object before any task was found);
        a failure shows the error's message. */
    method Update(token: Option<string>, failure: Option<string>) returns (req: Api.Request)
      modifies this`error
      ensures req == Api.UpdateRequest(id, if old(formData).Some? then Api.FormJson(old(formData).value) else Api.JObject([]), token)
      ensures failure.Some? ==> error == failure.value
      ensures failure.None? ==> error == ""
    {
      error := "";
      var body := if formData.Some? then Api.FormJson(formData.value) else Api.JObject([]);
      req := Api.UpdateRequest(id, body, token);
      if failure.Some? {
        error := failure.value;
      }
    }

    /** `handleDelete` after the confirmation: the request sent, and the message on failure. */
    method Delete(token: Option<string>, failed: bool) returns (req: Api.Request)
      modifies this`error
      ensures req == Api.DeleteRequest(id, token)
      ensures failed ==> error == "Failed to delete task"
      ensures !failed ==> error == old(error)
    {
      req := Api.DeleteRequest(id, token);
      if failed {
        error := "Failed to delete task";
      }
    }
  }
}
