/** The project screen: the project list, a selected project's filtered tasks, each project's
    aggregate status and completion percentage, and the reactions that keep the selection and
    the URL in step. */
module ProjectView {
  import opened Wrappers
  import opened Lists
  import opened Records
  import opened Query
  import opened Criteria
  import opened Aggregate
  import opened Selection
  import Badges

  /** The filter criteria of the project screen; "" means no constraint. */
  datatype ProjectFilters = ProjectFilters(owner: string, tags: string, status: string)

  const ClearedFilters := ProjectFilters("", "", "")

  /** `Object.entries(filters)`, in the object's key order. */
  function Entries(f: ProjectFilters): seq<(string, string)> {
    [("owner", f.owner), ("tags", f.tags), ("status", f.status)]
  }

  lemma EntriesDistinct(f: ProjectFilters)
    ensures DistinctKeys(Entries(f))
  {
  }

  /** The initial filter state, read from the URL (`searchParams.get(key) || ''`). */
  function ReadFilters(p: Params): ProjectFilters {
    ProjectFilters(GetOrEmpty(p, "owner"), GetOrEmpty(p, "tags"), GetOrEmpty(p, "status"))
  }

  /** The query written for a selected project: the non-empty filters plus `project=id`. */
  function ProjectQuery(f: ProjectFilters, projectId: string): Params {
    EntriesDistinct(f);
    SelectionQuery(Entries(f), "project", projectId)
  }

  /** The written query names the project, reads back as the same filters, and holds exactly the
      non-empty filters besides. */
  lemma ProjectQueryMeaning(f: ProjectFilters, projectId: string)
    ensures Get(ProjectQuery(f, projectId), "project") == Some(projectId)
    ensures ReadFilters(ProjectQuery(f, projectId)) == f
    ensures forall k :: k != "project" ==> (Get(ProjectQuery(f, projectId), k).Some? <==> GetOrEmpty(Entries(f), k) != "")
  {
    EntriesDistinct(f);
    var e := Entries(f);
    GetFirst(e, "owner", 0);
    GetFirst(e, "tags", 1);
    GetFirst(e, "status", 2);
  }

  /** The query building of the filter effect and of `handleProjectClick`. */
  method WriteProjectQuery(f: ProjectFilters, projectId: string) returns (p: Params)
    ensures p == ProjectQuery(f, projectId)
  {
    EntriesDistinct(f);
    var q := SetNonEmpty(Entries(f));
    p := Set(q, "project", projectId);
    assert p == SelectionQuery(Entries(f), "project", projectId);
  }

  /** A task of project `projectId` that satisfies every non-empty criterion. */
  predicate ProjectTaskMatches(t: Task, projectId: string, f: ProjectFilters) {
    t.projectId == projectId &&
    OwnerCriterion(t, f.owner) &&
    StatusCriterion(t, f.status) &&
    TagsCriterion(t, f.tags)
  }

  function ProjectMatcher(projectId: string, f: ProjectFilters): Task -> bool {
    (t: Task) => ProjectTaskMatches(t, projectId, f)
  }

  /** The tasks kept after the first `k` criterion steps of `getProjectTasks`. */
  function ProjectStage(projectId: string, f: ProjectFilters, k: nat): Task -> bool {
    (t: Task) =>
      t.projectId == projectId &&
      (k < 1 || OwnerCriterion(t, f.owner)) &&
      (k < 2 || StatusCriterion(t, f.status)) &&
      (k < 3 || TagsCriterion(t, f.tags))
  }

  /** One criterion step: filtering by `q` when the criterion is set, skipping it otherwise. */
  lemma ProjectStep(tasks: seq<Task>, projectId: string, f: ProjectFilters, k: nat, active: bool, q: Task -> bool)
    requires forall t :: ProjectStage(projectId, f, k + 1)(t) == (ProjectStage(projectId, f, k)(t) && (!active || q(t)))
    ensures (if active then Filter(Filter(tasks, ProjectStage(projectId, f, k)), q) else Filter(tasks, ProjectStage(projectId, f, k)))
      == Filter(tasks, ProjectStage(projectId, f, k + 1))
  {
    if active {
      FilterTwice(tasks, ProjectStage(projectId, f, k), q, ProjectStage(projectId, f, k + 1));
    } else {
      FilterExt(tasks, ProjectStage(projectId, f, k), ProjectStage(projectId, f, k + 1));
    }
  }

  lemma OwnerStep(tasks: seq<Task>, projectId: string, f: ProjectFilters)
    ensures (if f.owner != "" then Filter(Filter(tasks, ProjectStage(projectId, f, 0)), OwnerIs(f.owner))
      else Filter(tasks, ProjectStage(projectId, f, 0))) == Filter(tasks, ProjectStage(projectId, f, 1))
  {
    ProjectStep(tasks, projectId, f, 0, f.owner != "", OwnerIs(f.owner));
  }

  lemma StatusStep(tasks: seq<Task>, projectId: string, f: ProjectFilters)
    ensures (if f.status != "" then Filter(Filter(tasks, ProjectStage(projectId, f, 1)), HasStatus(f.status))
      else Filter(tasks, ProjectStage(projectId, f, 1))) == Filter(tasks, ProjectStage(projectId, f, 2))
  {
    ProjectStep(tasks, projectId, f, 1, f.status != "", HasStatus(f.status));
  }

  lemma TagsStep(tasks: seq<Task>, projectId: string, f: ProjectFilters)
    ensures (if f.tags != "" then Filter(Filter(tasks, ProjectStage(projectId, f, 2)), TagsAny(FilterTags(f.tags)))
      else Filter(tasks, ProjectStage(projectId, f, 2))) == Filter(tasks, ProjectStage(projectId, f, 3))
  {
    ProjectStep(tasks, projectId, f, 2, f.tags != "", TagsAny(FilterTags(f.tags)));
  }

  /** `getProjectTasks(projectId)`: the project's tasks, then one step per non-empty criterion;
      no sorting, so the tasks keep the order they were loaded in. */
  method GetProjectTasks(tasks: seq<Task>, projectId: string, f: ProjectFilters) returns (projectTasks: seq<Task>)
    ensures projectTasks == Filter(tasks, ProjectMatcher(projectId, f))
  {
    projectTasks := Filter(tasks, InProject(projectId));
    FilterExt(tasks, InProject(projectId), ProjectStage(projectId, f, 0));
    OwnerStep(tasks, projectId, f);
    if f.owner != "" {
      projectTasks := Filter(projectTasks, OwnerIs(f.owner));
    }
    StatusStep(tasks, projectId, f);
    if f.status != "" {
      projectTasks := Filter(projectTasks, HasStatus(f.status));
    }
    var filterTags := FilterTags(f.tags);
    TagsStep(tasks, projectId, f);
    if f.tags != "" {
      projectTasks := Filter(projectTasks, TagsAny(filterTags));
    }
    FilterExt(tasks, ProjectStage(projectId, f, 3), ProjectMatcher(projectId, f));
  }

  /** The listing keeps exactly the matching tasks, in their input order: it is a subsequence
      of the loaded tasks that leaves out only non-matching ones. */
  lemma ProjectTasksMeaning(tasks: seq<Task>, projectId: string, f: ProjectFilters)
    ensures forall t :: t in Filter(tasks, ProjectMatcher(projectId, f)) <==> t in tasks && ProjectTaskMatches(t, projectId, f)
    ensures (forall t :: t in tasks ==> ProjectTaskMatches(t, projectId, f)) ==> Filter(tasks, ProjectMatcher(projectId, f)) == tasks
  {
    if forall t :: t in tasks ==> ProjectTaskMatches(t, projectId, f) {
      FilterAll(tasks, ProjectMatcher(projectId, f));
    }
  }

  /** `getProjectStatus(projectId)`: the four-way rule over ALL of the project's tasks, whatever the filters. */
  function ProjectStatus(tasks: seq<Task>, projectId: string): (b: StatusBadge)
    ensures b.status == "No Tasks" <==> forall t :: t in tasks ==> t.projectId != projectId
    ensures b.status == "Completed" <==>
      (exists t :: t in tasks && t.projectId == projectId) &&
      (forall t :: t in tasks && t.projectId == projectId ==> t.status == Completed)
    ensures b.status == "In Progress" <==>
      (exists t :: t in tasks && t.projectId == projectId && t.status == Completed) &&
      (exists t :: t in tasks && t.projectId == projectId && t.status != Completed)
    ensures b.status == "Active" <==>
      (exists t :: t in tasks && t.projectId == projectId) &&
      (forall t :: t in tasks && t.projectId == projectId ==> t.status != Completed)
  {
    var own := Filter(tasks, InProject(projectId));
    FilterEmpty(tasks, InProject(projectId));
    AggregateStatus(own)
  }

  /** The percentage on a project card, computed over the FILTERED tasks of the project. */
  function ProjectCompletion(tasks: seq<Task>, projectId: string, f: ProjectFilters): (pct: nat)
    ensures pct <= 100
    ensures (forall t :: t in tasks ==> !ProjectTaskMatches(t, projectId, f)) ==> pct == 0
  {
    var listed := Filter(tasks, ProjectMatcher(projectId, f));
    FilterEmpty(tasks, ProjectMatcher(projectId, f));
    CompletionPercentage(listed)
  }

  /** The card's status and percentage never contradict each other, although they are computed
      over different task lists: the filtered tasks are a subset of the project's tasks. */
  lemma CompletionAgainstStatus(tasks: seq<Task>, projectId: string, f: ProjectFilters)
    ensures ProjectStatus(tasks, projectId).status == "No Tasks" ==> ProjectCompletion(tasks, projectId, f) == 0
    ensures ProjectStatus(tasks, projectId).status == "Active" ==> ProjectCompletion(tasks, projectId, f) == 0
    ensures ProjectStatus(tasks, projectId).status == "Completed" ==>
      ProjectCompletion(tasks, projectId, f) == 0 || ProjectCompletion(tasks, projectId, f) == 100
  {
    var listed := Filter(tasks, ProjectMatcher(projectId, f));
    PercentageMatchesStatus(listed);
    var s := AggregateStatus(listed);
    assert s.status == "No Tasks" || s.status == "Completed" || s.status == "In Progress" || s.status == "Active";
    if s.status == "In Progress" {
      var c :| c in listed && c.status == Completed;
      var n :| n in listed && n.status != Completed;
      assert c in tasks && c.projectId == projectId;
      assert n in tasks && n.projectId == projectId;
    }
  }

  /** With every criterion cleared the percentage is taken over the same tasks as the status. */
  lemma ClearedCompletion(tasks: seq<Task>, projectId: string)
    ensures ProjectCompletion(tasks, projectId, ClearedFilters) == CompletionPercentage(Filter(tasks, InProject(projectId)))
    ensures ProjectStatus(tasks, projectId).status == "Completed" ==> ProjectCompletion(tasks, projectId, ClearedFilters) == 100
  {
    FilterExt(tasks, ProjectMatcher(projectId, ClearedFilters), InProject(projectId));
    PercentageMatchesStatus(Filter(tasks, InProject(projectId)));
  }

  /** A project with one completed and one open task is "In Progress"; filtering it by the open
      status keeps only the open task, whose five days make it a high-priority task. */
  lemma TwoTaskProject()
    ensures var done := Task("t1", "Design", "p1", "", None, None, 0.5, Completed, 0, 0);
      var open := Task("t2", "Build", "p1", "", None, None, 5.0, ToDo, 0, 0);
      ProjectStatus([done, open], "p1").status == "In Progress" &&
      Filter([done, open], ProjectMatcher("p1", ProjectFilters("", "", ToDo))) == [open] &&
      Badges.PriorityOf(open.timeToComplete) == Badges.High
  {
    var done := Task("t1", "Design", "p1", "", None, None, 0.5, Completed, 0, 0);
    var open := Task("t2", "Build", "p1", "", None, None, 5.0, ToDo, 0, 0);
    assert done in [done, open] && open in [done, open];
    var m := ProjectMatcher("p1", ProjectFilters("", "", ToDo));
    assert !m(done) && m(open);
    assert [done, open][1..] == [open];
    assert [open][1..] == [];
  }

  /** The screen's state: the loaded collections, the filters, the selected project and the URL's query. */
  class ProjectViewState {
    var projects: seq<Project>
    var tasks: seq<Task>
    var filters: ProjectFilters
    var selected: Option<Project>
    var params: Params

    /** First render: filters read from the URL, nothing loaded, nothing selected. */
    constructor (url: Params)
      ensures params == url && filters == ReadFilters(url)
      ensures selected.None? && projects == [] && tasks == []
    {
      params := url;
      filters := ReadFilters(url);
      selected := None;
      projects := [];
      tasks := [];
    }

    /** The reaction to `[searchParams, projects]`. */
    method ApplyUrl()
      modifies this`selected
      ensures selected == ResolveSelection(Get(params, "project"), projects, ProjectId, old(selected))
    {
      var projectId := Get(params, "project");
      if projectId.Some? && projectId.value != "" {
        var project := FindFirst(projects, IdIs(ProjectId, projectId.value));
        if project.Some? {
          selected := project;
        }
      } else {
        selected := None;
      }
    }

    /** URL_changed: the query string changed. */
    method UrlChanged(p: Params)
      modifies this`params, this`selected
      ensures params == p
      ensures selected == ResolveSelection(Get(p, "project"), projects, ProjectId, old(selected))
      ensures filters == old(filters) && projects == old(projects) && tasks == old(tasks)
    {
      params := p;
      ApplyUrl();
    }

    /** `loadData` finished; the URL reaction runs again because `projects` changed. */
    method DataLoaded(newProjects: seq<Project>, newTasks: seq<Task>)
      modifies this`projects, this`tasks, this`selected
      ensures projects == newProjects && tasks == newTasks
      ensures selected == ResolveSelection(Get(params, "project"), newProjects, ProjectId, old(selected))
      ensures filters == old(filters) && params == old(params)
    {
      projects := newProjects;
      tasks := newTasks;
      ApplyUrl();
    }

    /** filters_changed: the query is rewritten only while a project is selected. */
    method FiltersChanged(f: ProjectFilters)
      modifies this`filters, this`params
      ensures filters == f
      ensures old(selected).Some? ==> params == ProjectQuery(f, old(selected).value.id)
      ensures old(selected).None? ==> params == old(params)
      ensures selected == old(selected) && projects == old(projects) && tasks == old(tasks)
    {
      filters := f;
      if selected.Some? {
        params := WriteProjectQuery(f, selected.value.id);
      }
    }

    /** clear_filters: owner, tags and status back to "", which is a filters change. */
    method ClearFilters()
      modifies this`filters, this`params
      ensures filters == ClearedFilters
      ensures old(selected).Some? ==> params == ProjectQuery(ClearedFilters, old(selected).value.id)
      ensures old(selected).None? ==> params == old(params)
      ensures selected == old(selected) && projects == old(projects) && tasks == old(tasks)
    {
      FiltersChanged(ClearedFilters);
    }

    /** card_clicked (`handleProjectClick`): toggles the selection and rewrites or empties the query. */
    method ProjectClicked(project: Project)
      modifies this`selected, this`params
      ensures selected == ClickSelection(old(selected), project, ProjectId)
      ensures selected.None? ==> params == []
      ensures selected.Some? ==> params == ProjectQuery(filters, project.id)
      ensures filters == old(filters) && projects == old(projects) && tasks == old(tasks)
    {
      var next := if selected.Some? && selected.value.id == project.id then None else Some(project);
      selected := next;
      if next.Some? {
        params := WriteProjectQuery(filters, next.value.id);
      } else {
        params := [];
      }
    }

    /** The "Back to Projects" button: the selection is dropped but the URL keeps its `project`
        parameter, so the next URL reaction selects the project again. */
    method BackClicked()
      modifies this`selected
      ensures selected.None?
      ensures params == old(params) && filters == old(filters) && projects == old(projects) && tasks == old(tasks)
    {
      selected := None;
    }

    /** The selected project's task table. */
    method SelectedTasks() returns (r: seq<Task>)
      requires selected.Some?
      ensures r == Filter(tasks, ProjectMatcher(selected.value.id, filters))
    {
      r := GetProjectTasks(tasks, selected.value.id, filters);
    }
  }
}
