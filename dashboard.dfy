/** The dashboard: the project and task lists narrowed by a keyword, the project cards' status,
    and the quick task-creation form with its tag editing. */
module Dashboard {
  import opened Wrappers
  import opened Lists
  import opened Records
  import opened Text
  import opened FormEditing
  import ProjectView

  /** One day and one week in milliseconds; "recent" means created at most a week before `now`. */
  const DayMillis := 86400000
  const WeekMillis := 7 * DayMillis

  /** The test `filteredProjects` applies to one project. */
  predicate ProjectKept(p: Project, keyword: string, now: int) {
    if keyword == "all" then true
    else if keyword == "recent" then p.createdAt >= now - WeekMillis
    else Includes(ToLower(p.name), ToLower(keyword))
  }

  function ProjectKeeper(keyword: string, now: int): Project -> bool {
    (p: Project) => ProjectKept(p, keyword, now)
  }

  /** `filteredProjects`: every project for "all", those of the last seven days for "recent", and
      otherwise those whose name contains the keyword, ignoring case; the order is kept. */
  function FilteredProjects(projects: seq<Project>, keyword: string, now: int): (r: seq<Project>)
    ensures keyword == "all" ==> r == projects
    ensures keyword == "recent" ==> forall p :: p in r <==> p in projects && p.createdAt >= now - WeekMillis
    ensures keyword != "all" && keyword != "recent" ==>
      forall p :: p in r <==> p in projects && Includes(ToLower(p.name), ToLower(keyword))
  {
    if keyword == "all" then
      FilterAll(projects, ProjectKeeper(keyword, now));
      Filter(projects, ProjectKeeper(keyword, now))
    else Filter(projects, ProjectKeeper(keyword, now))
  }

  /** The status a task-filter keyword selects, if it is one of the four status keywords. */
  function KeywordStatus(keyword: string): (r: Option<string>)
    ensures r.Some? ==> r.value in [ToDo, InProgress, Completed, Blocked]
    ensures r.None? <==> keyword !in ["todo", "in-progress", "completed", "blocked"]
  {
    match keyword
    case "todo" => Some(ToDo)
    case "in-progress" => Some(InProgress)
    case "completed" => Some(Completed)
    case "blocked" => Some(Blocked)
    case _ => None
  }

  /** The test `filteredTasks` applies to one task. */
  predicate TaskKept(t: Task, keyword: string) {
    if keyword == "all" then true
    else match KeywordStatus(keyword)
      case Some(s) => t.status == s
      case None => Includes(ToLower(t.name), ToLower(keyword))
  }

  function TaskKeeper(keyword: string): Task -> bool { (t: Task) => TaskKept(t, keyword) }

  /** `filteredTasks`: every task for "all", an exact status match for the four status keywords,
      and otherwise a case-insensitive substring match on the task name; the order is kept. */
  function FilteredTasks(tasks: seq<Task>, keyword: string): (r: seq<Task>)
    ensures keyword == "all" ==> r == tasks
    ensures KeywordStatus(keyword).Some? ==>
      forall t :: t in r <==> t in tasks && t.status == KeywordStatus(keyword).value
    ensures keyword != "all" && KeywordStatus(keyword).None? ==>
      forall t :: t in r <==> t in tasks && Includes(ToLower(t.name), ToLower(keyword))
  {
    if keyword == "all" then
      FilterAll(tasks, TaskKeeper(keyword));
      Filter(tasks, TaskKeeper(keyword))
    else Filter(tasks, TaskKeeper(keyword))
  }

  /** The name search ignores case: an upper-case keyword finds the same projects as its lower-case
      form, unless lower-casing turns it into one of the two fixed keywords. */
  lemma ProjectSearchIgnoresCase(projects: seq<Project>, keyword: string, now: int)
    requires keyword != "all" && keyword != "recent"
    requires ToLower(keyword) != "all" && ToLower(keyword) != "recent"
    ensures FilteredProjects(projects, ToLower(keyword), now) == FilteredProjects(projects, keyword, now)
  {
    ToLowerIdempotent(keyword);
    FilterExt(projects, ProjectKeeper(ToLower(keyword), now), ProjectKeeper(keyword, now));
  }

  /** "ALL" is not the keyword "all": it keeps only the projects whose name contains "all". */
  lemma UpperCaseAllSearches(projects: seq<Project>, now: int)
    ensures forall p :: p in FilteredProjects(projects, "ALL", now) <==> p in projects && Includes(ToLower(p.name), "all")
  {
    assert ToLower("ALL") == "all";
  }

  /** `getProjectStatus` on the dashboard is the rule of the project screen: "Completed" exactly
      when the project has tasks and the completed count equals the total. */
  lemma ProjectStatusCompletedIff(tasks: seq<Task>, projectId: string)
    ensures var own := Filter(tasks, InProject(projectId));
      ProjectView.ProjectStatus(tasks, projectId).status == "Completed" <==>
        |own| > 0 && Count(own, HasStatus(Completed)) == |own|
  {
    var own := Filter(tasks, InProject(projectId));
    CountAll(own, HasStatus(Completed));
    FilterEmpty(tasks, InProject(projectId));
  }

  /** The dashboard's mutable state: the loaded collections, the two keywords and the task form. */
  class DashboardState {
    var projects: seq<Project>
    var tasks: seq<Task>
    var teams: seq<Team>
    var projectFilter: string
    var taskFilter: string
    var taskForm: TaskForm
    var availableTags: seq<string>
    var newTag: string
    var error: string

    constructor ()
      ensures projects == [] && tasks == [] && teams == []
      ensures projectFilter == "all" && taskFilter == "all"
      ensures taskForm == EmptyTaskForm && availableTags == DefaultTags && newTag == "" && error == ""
    {
      projects := [];
      tasks := [];
      teams := [];
      projectFilter := "all";
      taskFilter := "all";
      taskForm := EmptyTaskForm;
      availableTags := DefaultTags;
      newTag := "";
      error := "";
    }

    /** `handleTagToggle(tag)`: only the form's tag list changes. */
    method TagToggle(tag: string)
      modifies this`taskForm
      ensures taskForm == old(taskForm).(tags := Toggle(old(taskForm).tags, tag))
    {
      taskForm := taskForm.(tags := Toggle(taskForm.tags, tag));
    }

    /** `addNewTag()`: an accepted tag is offered and selected, and the input is cleared;
        otherwise nothing changes. */
    method AddNewTag()
      modifies this`availableTags, this`taskForm, this`newTag
      ensures var tag := Trim(old(newTag));
        if AcceptsNewTag(old(newTag), old(availableTags)) then
          availableTags == old(availableTags) + [tag] &&
          taskForm == old(taskForm).(tags := old(taskForm).tags + [tag]) &&
          newTag == ""
        else
          availableTags == old(availableTags) && taskForm == old(taskForm) && newTag == old(newTag)
    {
      var tag := Trim(newTag);
      if tag != "" && tag !in availableTags {
        availableTags := availableTags + [tag];
        taskForm := taskForm.(tags := taskForm.tags + [tag]);
        newTag := "";
      }
    }

    /** `handleTaskSubmit`: the payload sent is the form with the default owner filled in; on
        success the form is reset, on failure the error message is kept and the form stays. */
    method SubmitTask(userId: string, failure: Option<string>) returns (payload: TaskForm)
      modifies this`taskForm, this`error
      ensures payload == WithDefaultOwner(old(taskForm), userId)
      ensures failure.None? ==> taskForm == EmptyTaskForm && error == ""
      ensures failure.Some? ==> taskForm == old(taskForm) && error == failure.value
    {
      error := "";
      payload := WithDefaultOwner(taskForm, userId);
      if failure.Some? {
        error := failure.value;
      } else {
        taskForm := EmptyTaskForm;
      }
    }
  }
}
