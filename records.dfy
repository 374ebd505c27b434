/** The records the client receives from the backend and the task form it edits.
    Timestamps are abstract instants (milliseconds); `timeToComplete` is a number of days. */
module Records {
  import opened Wrappers

  const ToDo := "To Do"
  const InProgress := "In Progress"
  const Completed := "Completed"
  const Blocked := "Blocked"

  /** A task as the backend sends it; `owners` and `tags` may be missing. */
  datatype Task = Task(
    id: string,
    name: string,
    projectId: string,
    teamId: string,
    owners: Option<seq<string>>,
    tags: Option<seq<string>>,
    timeToComplete: real,
    status: string,
    createdAt: int,
    updatedAt: int)

  datatype Project = Project(id: string, name: string, description: string, createdAt: int)

  datatype Member = Member(id: string, name: string, email: string, role: string)

  datatype Team = Team(id: string, name: string, description: string, createdAt: int, members: seq<Member>)

  /** The task form state shared by the create and edit dialogs. */
  datatype TaskForm = TaskForm(
    name: string,
    projectId: string,
    teamId: string,
    owners: seq<string>,
    timeToComplete: real,
    tags: seq<string>,
    status: string)

  /** The form's initial and reset value. */
  const EmptyTaskForm := TaskForm("", "", "", [], 1.0, [], ToDo)

  /** The tags offered before the user adds any. */
  const DefaultTags := ["Urgent", "Bug", "Feature", "Enhancement", "Documentation", "Testing"]

  function TaskId(t: Task): string { t.id }
  function TeamId(t: Team): string { t.id }
  function ProjectId(p: Project): string { p.id }

  /** `t => t.id === id` */
  function HasId(id: string): Task -> bool { (t: Task) => t.id == id }
  /** `t => t.teamId === teamId` */
  function InTeam(teamId: string): Task -> bool { (t: Task) => t.teamId == teamId }
  /** `t => t.projectId === projectId` */
  function InProject(projectId: string): Task -> bool { (t: Task) => t.projectId == projectId }
  /** `t => t.status === status` */
  function HasStatus(status: string): Task -> bool { (t: Task) => t.status == status }
}
