/** The team screen: the team list, a selected team's filtered and sorted tasks, each team's
    aggregate status, and the two reactions that keep the selection and the URL in step. */
module TeamView {
  import opened Wrappers
  import opened Lists
  import opened Records
  import opened Query
  import opened Criteria
  import opened Aggregate
  import opened Sorting
  import opened Selection

  /** The filter criteria of the team screen; "" means no constraint. */
  datatype TeamFilters = TeamFilters(owner: string, project: string, status: string, tags: string)

  const ClearedFilters := TeamFilters("", "", "", "")

  /** `Object.entries(filters)`, in the object's key order. */
  function Entries(f: TeamFilters): seq<(string, string)> {
    [("owner", f.owner), ("project", f.project), ("status", f.status), ("tags", f.tags)]
  }

  lemma EntriesDistinct(f: TeamFilters)
    ensures DistinctKeys(Entries(f))
  {
  }

  /** The initial filter state, read from the URL (`searchParams.get(key) || ''`). */
  function ReadFilters(p: Params): TeamFilters {
    TeamFilters(GetOrEmpty(p, "owner"), GetOrEmpty(p, "project"), GetOrEmpty(p, "status"), GetOrEmpty(p, "tags"))
  }

  /** The query written for a selected team: the non-empty filters plus `team=id`. */
  function TeamQuery(f: TeamFilters, teamId: string): Params {
    EntriesDistinct(f);
    SelectionQuery(Entries(f), "team", teamId)
  }

  /** The written query names the team, reads back as the same filters, and holds exactly the
      non-empty filters besides. */
  lemma TeamQueryMeaning(f: TeamFilters, teamId: string)
    ensures Get(TeamQuery(f, teamId), "team") == Some(teamId)
    ensures ReadFilters(TeamQuery(f, teamId)) == f
    ensures forall k :: k != "team" ==> (Get(TeamQuery(f, teamId), k).Some? <==> GetOrEmpty(Entries(f), k) != "")
  {
    EntriesDistinct(f);
    var e := Entries(f);
    GetFirst(e, "owner", 0);
    GetFirst(e, "project", 1);
    GetFirst(e, "status", 2);
    GetFirst(e, "tags", 3);
  }

  /** `applyStateToUrl`'s query building: the non-empty filters set one by one, then `team`. */
  method WriteTeamQuery(f: TeamFilters, teamId: string) returns (p: Params)
    ensures p == TeamQuery(f, teamId)
  {
    EntriesDistinct(f);
    var q := SetNonEmpty(Entries(f));
    p := Set(q, "team", teamId);
    assert p == SelectionQuery(Entries(f), "team", teamId);
  }

  /** A task of team `teamId` that satisfies every non-empty criterion. */
  predicate TeamTaskMatches(t: Task, teamId: string, f: TeamFilters) {
    t.teamId == teamId &&
    OwnerCriterion(t, f.owner) &&
    (f.project == "" || t.projectId == f.project) &&
    StatusCriterion(t, f.status) &&
    TagsCriterion(t, f.tags)
  }

  function TeamMatcher(teamId: string, f: TeamFilters): Task -> bool {
    (t: Task) => TeamTaskMatches(t, teamId, f)
  }

  /** The tasks kept after the first `k` criterion steps of `getTeamTasks`. */
  function TeamStage(teamId: string, f: TeamFilters, k: nat): Task -> bool {
    (t: Task) =>
      t.teamId == teamId &&
      (k < 1 || OwnerCriterion(t, f.owner)) &&
      (k < 2 || f.project == "" || t.projectId == f.project) &&
      (k < 3 || StatusCriterion(t, f.status)) &&
      (k < 4 || TagsCriterion(t, f.tags))
  }

  /** One criterion step: filtering by `q` when the criterion is set, skipping it otherwise. */
  lemma TeamStep(tasks: seq<Task>, teamId: string, f: TeamFilters, k: nat, active: bool, q: Task -> bool)
    requires forall t :: TeamStage(teamId, f, k + 1)(t) == (TeamStage(teamId, f, k)(t) && (!active || q(t)))
    ensures (if active then Filter(Filter(tasks, TeamStage(teamId, f, k)), q) else Filter(tasks, TeamStage(teamId, f, k)))
      == Filter(tasks, TeamStage(teamId, f, k + 1))
  {
    if active {
      FilterTwice(tasks, TeamStage(teamId, f, k), q, TeamStage(teamId, f, k + 1));
    } else {
      FilterExt(tasks, TeamStage(teamId, f, k), TeamStage(teamId, f, k + 1));
    }
  }

  lemma OwnerStep(tasks: seq<Task>, teamId: string, f: TeamFilters)
    ensures (if f.owner != "" then Filter(Filter(tasks, TeamStage(teamId, f, 0)), OwnerIs(f.owner))
      else Filter(tasks, TeamStage(teamId, f, 0))) == Filter(tasks, TeamStage(teamId, f, 1))
  {
    TeamStep(tasks, teamId, f, 0, f.owner != "", OwnerIs(f.owner));
  }

  lemma ProjectStep(tasks: seq<Task>, teamId: string, f: TeamFilters)
    ensures (if f.project != "" then Filter(Filter(tasks, TeamStage(teamId, f, 1)), InProject(f.project))
      else Filter(tasks, TeamStage(teamId, f, 1))) == Filter(tasks, TeamStage(teamId, f, 2))
  {
    TeamStep(tasks, teamId, f, 1, f.project != "", InProject(f.project));
  }

  lemma StatusStep(tasks: seq<Task>, teamId: string, f: TeamFilters)
    ensures (if f.status != "" then Filter(Filter(tasks, TeamStage(teamId, f, 2)), HasStatus(f.status))
      else Filter(tasks, TeamStage(teamId, f, 2))) == Filter(tasks, TeamStage(teamId, f, 3))
  {
    TeamStep(tasks, teamId, f, 2, f.status != "", HasStatus(f.status));
  }

  lemma TagsStep(tasks: seq<Task>, teamId: string, f: TeamFilters)
    ensures (if f.tags != "" then Filter(Filter(tasks, TeamStage(teamId, f, 3)), TagsAny(FilterTags(f.tags)))
      else Filter(tasks, TeamStage(teamId, f, 3))) == Filter(tasks, TeamStage(teamId, f, 4))
  {
    TeamStep(tasks, teamId, f, 3, f.tags != "", TagsAny(FilterTags(f.tags)));
  }

  /** The filter steps of `getTeamTasks`: the team's tasks, then one step per non-empty criterion. */
  method FilterTeamTasks(tasks: seq<Task>, teamId: string, f: TeamFilters) returns (teamTasks: seq<Task>)
    ensures teamTasks == Filter(tasks, TeamMatcher(teamId, f))
  {
    teamTasks := Filter(tasks, InTeam(teamId));
    FilterExt(tasks, InTeam(teamId), TeamStage(teamId, f, 0));
    OwnerStep(tasks, teamId, f);
    if f.owner != "" {
      teamTasks := Filter(teamTasks, OwnerIs(f.owner));
    }
    ProjectStep(tasks, teamId, f);
    if f.project != "" {
      teamTasks := Filter(teamTasks, InProject(f.project));
    }
    StatusStep(tasks, teamId, f);
    if f.status != "" {
      teamTasks := Filter(teamTasks, HasStatus(f.status));
    }
    var filterTags := FilterTags(f.tags);
    TagsStep(tasks, teamId, f);
    if f.tags != "" {
      teamTasks := Filter(teamTasks, TagsAny(filterTags));
    }
    FilterExt(tasks, TeamStage(teamId, f, 4), TeamMatcher(teamId, f));
  }

  /** `getTeamTasks(teamId)`: the filter steps, then an in-place sort, newest first. */
  method GetTeamTasks(tasks: seq<Task>, teamId: string, f: TeamFilters) returns (r: seq<Task>)
    ensures forall t :: t in r <==> t in tasks && TeamTaskMatches(t, teamId, f)
    ensures multiset(r) == multiset(Filter(tasks, TeamMatcher(teamId, f)))
    ensures Sorted(r, CreatedAt, true)
  {
    var teamTasks := FilterTeamTasks(tasks, teamId, f);
    var a := new Task[|teamTasks|](i requires 0 <= i < |teamTasks| => teamTasks[i]);
    assert a[..] == teamTasks;
    SortTasks(a, CreatedAt, true);
    r := a[..];
    SameElements(r, teamTasks);
  }

  /** `getTeamStatus(teamId)`: the four-way rule over the team's FILTERED tasks. */
  function TeamStatus(tasks: seq<Task>, teamId: string, f: TeamFilters): (b: StatusBadge)
    ensures b.status == "No Tasks" <==> forall t :: t in tasks ==> !TeamTaskMatches(t, teamId, f)
    ensures b.status == "Completed" <==>
      (exists t :: t in tasks && TeamTaskMatches(t, teamId, f)) &&
      (forall t :: t in tasks && TeamTaskMatches(t, teamId, f) ==> t.status == Completed)
    ensures b.status == "In Progress" <==>
      (exists t :: t in tasks && TeamTaskMatches(t, teamId, f) && t.status == Completed) &&
      (exists t :: t in tasks && TeamTaskMatches(t, teamId, f) && t.status != Completed)
    ensures b.status == "Active" <==>
      (exists t :: t in tasks && TeamTaskMatches(t, teamId, f)) &&
      (forall t :: t in tasks && TeamTaskMatches(t, teamId, f) ==> t.status != Completed)
  {
    var listed := Filter(tasks, TeamMatcher(teamId, f));
    FilterEmpty(tasks, TeamMatcher(teamId, f));
    AggregateStatus(listed)
  }

  /** The completion percentage on a team card, over the same filtered tasks. */
  function TeamCompletion(tasks: seq<Task>, teamId: string, f: TeamFilters): (pct: nat)
    ensures pct <= 100
    ensures (forall t :: t in tasks ==> !TeamTaskMatches(t, teamId, f)) ==> pct == 0
    ensures TeamStatus(tasks, teamId, f).status == "Completed" ==> pct == 100
  {
    var listed := Filter(tasks, TeamMatcher(teamId, f));
    FilterEmpty(tasks, TeamMatcher(teamId, f));
    PercentageMatchesStatus(listed);
    CompletionPercentage(listed)
  }

  /** What the screen shows for the list `GetTeamTasks` returns is what the rule over the filtered tasks gives. */
  lemma ListingStatus(tasks: seq<Task>, teamId: string, f: TeamFilters, listing: seq<Task>)
    requires multiset(listing) == multiset(Filter(tasks, TeamMatcher(teamId, f)))
    ensures AggregateStatus(listing) == TeamStatus(tasks, teamId, f)
    ensures CompletionPercentage(listing) == TeamCompletion(tasks, teamId, f)
  {
    AggregatePermutation(listing, Filter(tasks, TeamMatcher(teamId, f)));
  }

  const TeamColors := ["primary", "success", "info", "warning", "danger", "secondary"]

  /** `getTeamColor(index)`: the colours cycle with period six. */
  function TeamColor(index: nat): (c: string)
    ensures c in TeamColors
  {
    TeamColors[index % |TeamColors|]
  }

  /** The colour of card `index + 6` repeats that of card `index`. */
  lemma TeamColorPeriodic(index: nat)
    ensures TeamColor(index + 6) == TeamColor(index)
  {
    assert (index + 6) % 6 == index % 6;
  }

  /** Any six consecutive team cards have six different colours. */
  lemma TeamColorsDistinct(i: nat, j: nat)
    requires i < j < i + 6
    ensures TeamColor(i) != TeamColor(j)
  {
    var q, a := i / 6, i % 6;
    assert j == 6 * q + a + (j - i);
    if a + (j - i) < 6 {
      assert j % 6 == a + (j - i);
    } else {
      assert j == 6 * (q + 1) + (a + (j - i) - 6);
      assert j % 6 == a + (j - i) - 6;
    }
  }

  /** The screen's state: the loaded collections, the filters, the selected team and the URL's query. */
  class TeamViewState {
    var teams: seq<Team>
    var tasks: seq<Task>
    var filters: TeamFilters
    var selected: Option<Team>
    var params: Params

    /** First render: filters read from the URL, nothing loaded, nothing selected. */
    constructor (url: Params)
      ensures params == url && filters == ReadFilters(url)
      ensures selected.None? && teams == [] && tasks == []
    {
      params := url;
      filters := ReadFilters(url);
      selected := None;
      teams := [];
      tasks := [];
    }

    /** The reaction to `[searchParams, teams]` (applyUrlToState). */
    method ApplyUrl()
      modifies this`selected
      ensures selected == ResolveSelection(Get(params, "team"), teams, TeamId, old(selected))
    {
      var teamId := Get(params, "team");
      if teamId.Some? && teamId.value != "" {
        var team := FindFirst(teams, IdIs(TeamId, teamId.value));
        if team.Some? {
          selected := team;
        }
      } else {
        selected := None;
      }
    }

    /** URL_changed: the query string changed (navigation, back button, a link). */
    method UrlChanged(p: Params)
      modifies this`params, this`selected
      ensures params == p
      ensures selected == ResolveSelection(Get(p, "team"), teams, TeamId, old(selected))
      ensures filters == old(filters) && teams == old(teams) && tasks == old(tasks)
    {
      params := p;
      ApplyUrl();
    }

    /** The collections arrived; the URL reaction runs again because `teams` changed. */
    method DataLoaded(newTeams: seq<Team>, newTasks: seq<Task>)
      modifies this`teams, this`tasks, this`selected
      ensures teams == newTeams && tasks == newTasks
      ensures selected == ResolveSelection(Get(params, "team"), newTeams, TeamId, old(selected))
      ensures filters == old(filters) && params == old(params)
    {
      teams := newTeams;
      tasks := newTasks;
      ApplyUrl();
    }

    /** filters_changed (applyStateToUrl): the query is rewritten only while a team is selected. */
    method FiltersChanged(f: TeamFilters)
      modifies this`filters, this`params
      ensures filters == f
      ensures old(selected).Some? ==> params == TeamQuery(f, old(selected).value.id)
      ensures old(selected).None? ==> params == old(params)
      ensures selected == old(selected) && teams == old(teams) && tasks == old(tasks)
    {
      filters := f;
      if selected.Some? {
        params := WriteTeamQuery(f, selected.value.id);
      }
    }

    /** clear_filters: every criterion back to "", which is a filters change. */
    method ClearFilters()
      modifies this`filters, this`params
      ensures filters == ClearedFilters
      ensures old(selected).Some? ==> params == TeamQuery(ClearedFilters, old(selected).value.id)
      ensures old(selected).None? ==> params == old(params)
      ensures selected == old(selected) && teams == old(teams) && tasks == old(tasks)
    {
      FiltersChanged(ClearedFilters);
    }

    /** card_clicked (`handleTeamClick`): toggles the selection and rewrites or empties the query. */
    method TeamClicked(team: Team)
      modifies this`selected, this`params
      ensures selected == ClickSelection(old(selected), team, TeamId)
      ensures selected.None? ==> params == []
      ensures selected.Some? ==> params == TeamQuery(filters, team.id)
      ensures filters == old(filters) && teams == old(teams) && tasks == old(tasks)
    {
      var next := if selected.Some? && selected.value.id == team.id then None else Some(team);
      selected := next;
      if next.Some? {
        params := WriteTeamQuery(filters, next.value.id);
      } else {
        params := [];
      }
    }

    /** The "Back to Teams" button: the selection is dropped but the URL keeps its `team`
        parameter, so the next URL reaction (a reload, or the teams arriving) selects the team again. */
    method BackClicked()
      modifies this`selected
      ensures selected.None?
      ensures params == old(params) && filters == old(filters) && teams == old(teams) && tasks == old(tasks)
    {
      selected := None;
    }

    /** The selected team's task table. */
    method SelectedTasks() returns (r: seq<Task>)
      requires selected.Some?
      ensures forall t :: t in r <==> t in tasks && TeamTaskMatches(t, selected.value.id, filters)
      ensures multiset(r) == multiset(Filter(tasks, TeamMatcher(selected.value.id, filters)))
      ensures Sorted(r, CreatedAt, true)
    {
      r := GetTeamTasks(tasks, selected.value.id, filters);
    }
  }
}
