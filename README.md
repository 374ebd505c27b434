# Workasana client data-shaping layer in Dafny

Workasana is a browser dashboard for projects, tasks and teams. It talks to a REST backend. Its
screens take the collections the backend sends and reshape them on the client. This project
models that reshaping logic and proves properties of it:

- the filter evaluators of the team, project, task-list and dashboard screens. Criteria combine
  with AND; the comma-separated `tags` criterion matches a task that has any listed tag;
- the aggregate status of a team or project (No Tasks / Completed / In Progress / Active) and
  its completion percentage;
- the status badge classes, and the priority bands derived from `timeToComplete`;
- the selection and query-string synchroniser of the team and project screens. It is a state
  machine over the loaded collections, the filters, the selected parent and the URL query, with
  the transitions URL changed, data loaded, filters changed, filters cleared and card clicked.
  The task-list screen's filters-to-URL reaction is modelled too;
- the form-list editing helpers: toggling an owner or a tag, adding a new tag, and filling in the
  default owner on submit;
- the in-place sort of the task lists, and the data behind the three report charts;
- request construction in the HTTP client: the tasks query string, header assembly, the error
  message of a failed response, and the update, delete and create requests.

Each source file is one module. `TeamView`, `ProjectView`, `Dashboard`, `TaskList`,
`TaskDetails`, `Reports` and `Api` each hold a component. A component's React state becomes the
fields of a class. Each effect or handler becomes a method with `modifies` and an `ensures` that
states the whole new state. Its pure logic becomes functions and lemmas. Shared pieces have
their own modules:

- `Records`: the entities;
- `Lists`: `filter` and `find`;
- `Text`: `trim`, `split`, `toLowerCase`, `includes` and string order;
- `Query`: `URLSearchParams` as a list of name/value pairs;
- `Criteria`: the per-field task criteria;
- `Selection`: the selection rules the team and project screens share;
- `Aggregate`: the four-way status rule and the percentage;
- `Badges`: status badges and priority bands;
- `Sorting`: the in-place insertion sort;
- `FormEditing`: the list toggles and the default owner.

## Model

| member | source | states |
|---|---|---|
| Lists.Filter | src/components/teams/TeamView.jsx:137 | `filter` keeps exactly the elements satisfying the predicate and never lengthens the list |
| Lists.FindFirst | src/components/teams/TeamView.jsx:43 | `find` is absent iff no element matches; otherwise it is the earliest matching element |
| Lists.FilterPermutation | src/components/teams/TeamView.jsx:159-169 | filtering two permutations of one list gives permutations with equal counts |
| Text.Trim | src/components/Dashboard.jsx:120 | `trim` cuts only white space from the two ends and leaves no white space at either end; the result is empty iff the input is all white space |
| Text.TrimIdempotent | src/components/Dashboard.jsx:120 | trimming twice is trimming once |
| Text.Split | src/components/teams/TeamView.jsx:152 | `split(',')` gives at least one part, no part holds the separator, and joining the parts gives the input back |
| Text.SplitJoin | src/components/teams/TeamView.jsx:152 | splitting a join of separator-free parts gives the parts back |
| Text.ToLower | src/components/Dashboard.jsx:163 | lower-casing keeps the length, maps each character, and leaves no upper-case ASCII letter |
| Text.ToLowerIdempotent | src/components/Dashboard.jsx:163 | lower-casing twice is lower-casing once |
| Text.Includes | src/components/Dashboard.jsx:163 | `includes` holds iff the needle occurs at some position of the haystack |
| Text.IncludesEmpty | src/components/Dashboard.jsx:172 | the empty keyword occurs in every name |
| Text.StrLeTotal | src/components/tasks/TaskList.jsx:93-97 | any two names are ordered one way or the other |
| Text.StrLeTrans | src/components/tasks/TaskList.jsx:93-97 | the string order is transitive |
| Query.Get | src/components/tasks/TaskList.jsx:17 | `get(k)` is absent iff no pair is named `k`, and otherwise holds a value paired with `k` |
| Query.GetFirst | src/components/tasks/TaskList.jsx:17 | `get(k)` returns the value of the first pair named `k` |
| Query.Set | src/components/tasks/TaskList.jsx:50 | after `set(k, v)`, `k` reads `v` and every other name reads as before; a new name is appended |
| Query.SetNonEmpty | src/components/tasks/TaskList.jsx:48-51 | the `forEach` that sets every truthy entry builds exactly the non-empty entries in order |
| Query.GetNonEmpty | src/components/tasks/TaskList.jsx:16-22 | reading a name back from the non-empty entries gives its value, and a missing name reads "" |
| Query.Serialize | src/services/api.js:82 | the query string is empty iff there are no pairs |
| Query.ParseSerialize | src/components/tasks/TaskList.jsx:52 | parsing a serialised query gives back the same pairs, when no name or value contains `&` or `=` |
| Criteria.FilterTags | src/components/teams/TeamView.jsx:152 | the tags criterion is split on "," and each part trimmed; there is always at least one part |
| Criteria.SomeIncluded | src/components/teams/TeamView.jsx:154 | `some(tag => tags.includes(tag))` holds iff one listed tag is among the task's tags |
| Criteria.UntaggedDropped | src/components/teams/TeamView.jsx:151-155 | a task without tags never passes a non-empty tags criterion |
| Selection.SelectionQuery | src/components/teams/TeamView.jsx:186-192 | the selection query names the parent id and holds exactly the non-empty filters with their values |
| Selection.ResolveSelection | src/components/teams/TeamView.jsx:39-51 | no id clears the selection, a known id selects a parent with that id, an unknown id leaves the selection unchanged |
| Selection.ClickSelection | src/components/teams/TeamView.jsx:182 | clicking deselects iff the clicked parent is the selected one, and otherwise selects it |
| Selection.ResolveAfterDeselect | src/components/teams/TeamView.jsx:193-196 | after a deselection empties the query, the URL reaction also clears the selection |
| Selection.ResolveAfterSelect | src/components/teams/TeamView.jsx:186-192 | after a selection writes its query, the URL reaction keeps a parent with the same id, so the two reactions never undo each other |
| Aggregate.CompletedCountPositive | src/components/Dashboard.jsx:144 | the completed count is positive iff some task is completed |
| Aggregate.AggregateStatus | src/components/Dashboard.jsx:137-154 | No Tasks iff no tasks; Completed iff some tasks and all completed; In Progress iff some completed and some not; Active iff some tasks and none completed; each status carries its badge class |
| Aggregate.AggregatePermutation | src/components/teams/TeamView.jsx:209-215 | the status and the percentage do not depend on task order |
| Aggregate.CompletionPercentage | src/components/projects/ProjectView.jsx:436 | 0 without tasks; otherwise the integer nearest 100·completed/total, halves rounded up, and within 0..100 |
| Aggregate.PercentageMatchesStatus | src/components/teams/TeamView.jsx:475-479 | a Completed card shows 100 percent and an Active card 0 percent |
| Badges.StatusBadgeClass | src/components/Dashboard.jsx:130-135 | Completed→bg-success, In Progress→bg-warning, Blocked→bg-danger, anything else→bg-secondary, each iff |
| Badges.PriorityMonotone | src/components/tasks/TaskList.jsx:192-196 | a longer task never has a lower priority band |
| Badges.PriorityColor | src/components/tasks/TaskList.jsx:192-196 | the colour of the band of ≤1 / ≤3 / >3 days: text-success iff ≤1 day, text-danger iff more than 3 days |
| Badges.PriorityLabel | src/components/tasks/TaskDetails.jsx:413-414 | the Low / Medium / High Priority caption names the same band as the colour |
| Sorting.SortTasks | src/components/tasks/TaskList.jsx:84-98 | afterwards the array is ordered by the field in the direction asked, and it holds a permutation of its old contents |
| FormEditing.Toggle | src/components/tasks/TaskList.jsx:139-146 | membership of the toggled value flips, no other value's membership changes, and an absent value is appended at the end |
| FormEditing.ToggleTwiceAbsent | src/components/Dashboard.jsx:110-117 | toggling an absent value twice restores the list |
| FormEditing.ToggleTwicePresent | src/components/tasks/TaskList.jsx:148-155 | toggling a present value twice drops all its repetitions and puts one copy last |
| FormEditing.AddTagOnce | src/components/tasks/TaskList.jsx:157-166 | once a tag is added, the same input and an empty input are both refused |
| FormEditing.WithDefaultOwner | src/components/tasks/TaskList.jsx:112-116 | the payload's owners are `[userId]` iff the form's owners are empty, and every other field passes through |
| TeamView.TeamQueryMeaning | src/components/teams/TeamView.jsx:54-64 | the query written for a selected team names the team, holds exactly the non-empty filters, and reads back as the same filters |
| TeamView.WriteTeamQuery | src/components/teams/TeamView.jsx:57-61 | the `forEach` and `set('team', id)` build that query |
| TeamView.FilterTeamTasks | src/components/teams/TeamView.jsx:136-156 | the successive filter steps keep exactly the team's tasks that satisfy every non-empty criterion, in input order |
| TeamView.GetTeamTasks | src/components/teams/TeamView.jsx:136-172 | the listing holds exactly the matching tasks as a permutation of the filtered subset, newest first |
| TeamView.TeamStatus | src/components/teams/TeamView.jsx:208-225 | the four-way rule over the team's filtered tasks, each case an iff |
| TeamView.TeamCompletion | src/components/teams/TeamView.jsx:475-478 | the card's percentage lies in 0..100; it is 0 without matching tasks and 100 for a Completed team |
| TeamView.ListingStatus | src/components/teams/TeamView.jsx:209-215 | the sorted listing gives the same status and percentage as the filtered tasks |
| TeamView.TeamColor | src/components/teams/TeamView.jsx:227-230 | a card colour is always one of the six colours |
| TeamView.TeamColorPeriodic | src/components/teams/TeamView.jsx:229 | the colours repeat with period six |
| TeamView.TeamColorsDistinct | src/components/teams/TeamView.jsx:229 | any six consecutive cards have six different colours |
| TeamView.TeamViewState.constructor | src/components/teams/TeamView.jsx:16-21 | the filters are read from the URL, with missing names as "", and nothing is selected |
| TeamView.TeamViewState.ApplyUrl | src/components/teams/TeamView.jsx:39-51 | the URL reaction sets the selection by the `team` parameter and the loaded teams |
| TeamView.TeamViewState.UrlChanged | src/components/teams/TeamView.jsx:39-51 | URL_changed stores the query and resolves the selection; filters and collections are unchanged |
| TeamView.TeamViewState.DataLoaded | src/components/teams/TeamView.jsx:75-80 | loading replaces the collections and re-resolves the selection against the new teams |
| TeamView.TeamViewState.FiltersChanged | src/components/teams/TeamView.jsx:54-64 | filters_changed rewrites the query to the team query iff a team is selected, and otherwise leaves it alone |
| TeamView.TeamViewState.ClearFilters | src/components/teams/TeamView.jsx:199-206 | owner, project, status and tags become "", with the query rewritten only while a team is selected |
| TeamView.TeamViewState.TeamClicked | src/components/teams/TeamView.jsx:181-197 | clicking toggles the selection; deselecting empties the query, selecting writes the team query |
| TeamView.TeamViewState.BackClicked | src/components/teams/TeamView.jsx:296-298 | "Back to Teams" drops the selection and leaves the query, with its `team` parameter, unchanged |
| TeamView.TeamViewState.SelectedTasks | src/components/teams/TeamView.jsx:386 | the selected team's table holds exactly its matching tasks, each as often as in the filtered collection, newest first |
| ProjectView.ProjectQueryMeaning | src/components/projects/ProjectView.jsx:46-56 | the query written for a selected project names the project, holds exactly the non-empty filters, and reads back as the same filters |
| ProjectView.WriteProjectQuery | src/components/projects/ProjectView.jsx:49-53 | the `forEach` and `set('project', id)` build that query |
| ProjectView.GetProjectTasks | src/components/projects/ProjectView.jsx:102-122 | the filter steps equal one filter by the project and every non-empty owner, status and tags criterion, in input order |
| ProjectView.ProjectTasksMeaning | src/components/projects/ProjectView.jsx:102-122 | a task is listed iff it is loaded and matches; with every task matching the list is the input itself |
| ProjectView.ProjectStatus | src/components/projects/ProjectView.jsx:149-166 | the four-way rule over all of the project's tasks, whatever the filters, each case an iff |
| ProjectView.ProjectCompletion | src/components/projects/ProjectView.jsx:433-436 | the card's percentage, over the filtered tasks, lies in 0..100 and is 0 without matching tasks |
| ProjectView.CompletionAgainstStatus | src/components/projects/ProjectView.jsx:433-437 | a No Tasks or Active card shows 0 percent, a Completed card 0 or 100 |
| ProjectView.ClearedCompletion | src/components/projects/ProjectView.jsx:433-437 | with the filters cleared the percentage is taken over the status's tasks, so a Completed card shows 100 |
| ProjectView.TwoTaskProject | src/components/projects/ProjectView.jsx:149-166 | one completed and one open task give In Progress; the To Do filter keeps only the open task, whose 5 days are High priority |
| ProjectView.ProjectViewState.constructor | src/components/projects/ProjectView.jsx:14-18 | the filters are read from the URL, with missing names as "", and nothing is selected |
| ProjectView.ProjectViewState.ApplyUrl | src/components/projects/ProjectView.jsx:31-43 | the URL reaction sets the selection by the `project` parameter and the loaded projects |
| ProjectView.ProjectViewState.UrlChanged | src/components/projects/ProjectView.jsx:31-43 | URL_changed stores the query and resolves the selection; filters and collections are unchanged |
| ProjectView.ProjectViewState.DataLoaded | src/components/projects/ProjectView.jsx:66-67 | loading replaces the collections and re-resolves the selection against the new projects |
| ProjectView.ProjectViewState.FiltersChanged | src/components/projects/ProjectView.jsx:46-56 | filters_changed rewrites the query iff a project is selected |
| ProjectView.ProjectViewState.ClearFilters | src/components/projects/ProjectView.jsx:168-174 | owner, tags and status become "", with the query rewritten only while a project is selected |
| ProjectView.ProjectViewState.ProjectClicked | src/components/projects/ProjectView.jsx:131-147 | clicking toggles the selection; deselecting empties the query, selecting writes the project query |
| ProjectView.ProjectViewState.BackClicked | src/components/projects/ProjectView.jsx:261-263 | "Back to Projects" drops the selection and leaves the query, with its `project` parameter, unchanged |
| ProjectView.ProjectViewState.SelectedTasks | src/components/projects/ProjectView.jsx:350 | the selected project's table is its filtered tasks in input order |
| Dashboard.FilteredProjects | src/components/Dashboard.jsx:156-164 | "all" keeps every project, "recent" those created at most seven days before now, anything else a case-insensitive name match |
| Dashboard.KeywordStatus | src/components/Dashboard.jsx:168-171 | exactly the four keywords todo, in-progress, completed and blocked name a status |
| Dashboard.FilteredTasks | src/components/Dashboard.jsx:166-173 | "all" keeps every task, a status keyword an exact status match, anything else a case-insensitive name match |
| Dashboard.ProjectSearchIgnoresCase | src/components/Dashboard.jsx:163 | a keyword and its lower-case form find the same projects |
| Dashboard.UpperCaseAllSearches | src/components/Dashboard.jsx:157-163 | "ALL" is a name search, not the keyword "all" |
| Dashboard.ProjectStatusCompletedIff | src/components/Dashboard.jsx:137-154 | Completed iff the project has tasks and all of them are completed |
| Dashboard.DashboardState.constructor | src/components/Dashboard.jsx:8-30 | the keywords start at "all", the form empty, the offered tags the six defaults |
| Dashboard.DashboardState.TagToggle | src/components/Dashboard.jsx:110-117 | only the form's tags change, by a toggle |
| Dashboard.DashboardState.AddNewTag | src/components/Dashboard.jsx:119-128 | an accepted trimmed tag is appended to both lists and the input cleared; otherwise nothing changes |
| Dashboard.DashboardState.SubmitTask | src/components/Dashboard.jsx:76-108 | the payload is the form with the default owner; success resets the form, failure keeps it and shows the message |
| TaskList.FiltersQuery | src/components/tasks/TaskList.jsx:46-52 | the URL holds exactly the non-empty filter entries |
| TaskList.ReadWrittenFilters | src/components/tasks/TaskList.jsx:16-22 | reading the written query back reproduces the filters |
| TaskList.UrlRoundTrip | src/components/tasks/TaskList.jsx:16-22 | the same holds through the serialised query string, when no value needs percent-encoding |
| TaskList.CleanFilters | src/components/tasks/TaskList.jsx:78-80 | `cleanFilters` keeps exactly the entries whose value is not "" |
| TaskList.CleanFiltersEndpoint | src/components/tasks/TaskList.jsx:78-81 | cleaning does not change the requested endpoint |
| TaskList.BareEndpoint | src/components/tasks/TaskList.jsx:81 | the request has no query string iff every filter is "" |
| TaskList.TaskListState.constructor | src/components/tasks/TaskList.jsx:16-39 | the filters are read from the URL, the sort is createdAt descending, the form empty |
| TaskList.TaskListState.FiltersChanged | src/components/tasks/TaskList.jsx:46-54 | the query becomes the non-empty filters and the tasks endpoint for them is requested |
| TaskList.TaskListState.ClearFilters | src/components/tasks/TaskList.jsx:198-206 | all five filters become "", the query empties and plain "/tasks" is requested |
| TaskList.TaskListState.TasksLoaded | src/components/tasks/TaskList.jsx:84-100 | the received array is sorted in place by the current field and direction, as a permutation, and becomes the list |
| TaskList.TaskListState.DataLoaded | src/components/tasks/TaskList.jsx:56-68 | the mount-time load sets the list to the whole unfiltered collection as received, unsorted; nothing else changes |
| TaskList.TaskListState.SortByChanged | src/components/tasks/TaskList.jsx:304-305 | the sort select changes only the sort field |
| TaskList.TaskListState.OwnerToggle | src/components/tasks/TaskList.jsx:139-146 | only the form's owners change, by a toggle |
| TaskList.TaskListState.TagToggle | src/components/tasks/TaskList.jsx:148-155 | only the form's tags change, by a toggle |
| TaskList.TaskListState.AddNewTag | src/components/tasks/TaskList.jsx:157-166 | an accepted trimmed tag is appended to both lists and the input cleared; otherwise nothing changes |
| TaskList.TaskListState.Submit | src/components/tasks/TaskList.jsx:106-137 | owners become `[userId]` iff the form's owners are empty; success resets the form, failure keeps it and shows the message |
| TaskDetails.FindTask | src/components/tasks/TaskDetails.jsx:26 | absent iff no task carries the routed id; otherwise a loaded task with that id |
| TaskDetails.FormOf | src/components/tasks/TaskDetails.jsx:29-37 | the form copies name, project, team, time and status, and a missing owners or tags list becomes [] |
| TaskDetails.UntouchedFormRoundTrip | src/components/tasks/TaskDetails.jsx:71 | saving an untouched form changes the task only by storing missing lists as [] |
| TaskDetails.ExactlyCurrentDisabled | src/components/tasks/TaskDetails.jsx:376-399 | exactly the button of the current status is disabled: at most one, and one iff the status is one of the four |
| TaskDetails.StatusUpdate | src/components/tasks/TaskDetails.jsx:83 | a status change sends an object with the single field `status` |
| TaskDetails.TaskDetailsState.constructor | src/components/tasks/TaskDetails.jsx:6-15 | no task, no form and no error before loading |
| TaskDetails.TaskDetailsState.LoadTaskDetails | src/components/tasks/TaskDetails.jsx:23-47 | a found task sets the task and its form; a missing one sets "Task not found"; a failed fetch sets "Failed to load task details" |
| TaskDetails.TaskDetailsState.StatusChange | src/components/tasks/TaskDetails.jsx:81-88 | a PUT of `{status}` to the task |
| TaskDetails.TaskDetailsState.Update | src/components/tasks/TaskDetails.jsx:65-79 | a PUT of the form to the task; a failure shows its message |
| TaskDetails.TaskDetailsState.Delete | src/components/tasks/TaskDetails.jsx:90-99 | a DELETE of the task; a failure sets "Failed to delete task" |
| Reports.SlotOf | src/components/reports/Reports.jsx:95 | a status has a slot iff it is one of the three pending statuses, and the slot holds that status |
| Reports.TallyStep | src/components/reports/Reports.jsx:96-99 | counting one more task bumps only the entry of its status |
| Reports.TalliesStep | src/components/reports/Reports.jsx:94-100 | one `forEach` step bumps the entry of the task's status and leaves tasks of other statuses out |
| Reports.PendingStats | src/components/reports/Reports.jsx:88-100 | each of the three entries holds the number of tasks with its status and the sum of their days |
| Reports.PendingWorkChart | src/components/reports/Reports.jsx:85-122 | no chart without a report; otherwise the labels are To Do, In Progress, Blocked and the data the days of work per status |
| Reports.OtherStatusesIgnored | src/components/reports/Reports.jsx:95-96 | dropping tasks of other statuses changes no count and no time |
| Reports.PendingCountsAddUp | src/components/reports/Reports.jsx:94-100 | the three counts add up to the number of pending tasks |
| Reports.TimeNonNegative | src/components/reports/Reports.jsx:98 | with no negative durations no entry shows negative work |
| Reports.Weekday | src/components/reports/Reports.jsx:61 | `getDay` is one of the seven day indices |
| Reports.LastWeekChart | src/components/reports/Reports.jsx:50-83 | no chart without a report; otherwise seven buckets from six days ago to today, each labelled with its weekday and counting the tasks updated that day |
| Reports.WeekLabels | src/components/reports/Reports.jsx:58-61 | the last bucket is today, consecutive buckets are consecutive weekdays, and the seven labels differ |
| Reports.WeekTotal | src/components/reports/Reports.jsx:58-69 | the buckets together count exactly the tasks updated during the seven days |
| Reports.ClosedChart | src/components/reports/Reports.jsx:127-137 | labels and data have the entries' length, and pair up to the entries |
| Reports.ClosedChartZips | src/components/reports/Reports.jsx:133-137 | zipping the labels with the data gives the entries back |
| Reports.ClosedTasksCharts | src/components/reports/Reports.jsx:124-158 | no charts without a report; otherwise one chart each for byTeam, byProject and byOwner |
| Reports.ReportsState.constructor | src/components/reports/Reports.jsx:17-23 | all three reports start null |
| Reports.ReportsState.LoadReports | src/components/reports/Reports.jsx:29-48 | success stores the three reports, failure keeps them and sets "Failed to load reports" |
| Api.BuildTasksQuery | src/services/api.js:78-81 | the `forEach` appends exactly the truthy filters in entry order |
| Api.TasksEndpoint | src/services/api.js:77-83 | the endpoint is "/tasks" iff no filter is truthy; otherwise "/tasks?" and the query string |
| Api.TasksGetAllEndpoint | src/services/api.js:77-84 | `getAll` requests that endpoint |
| Api.TasksQueryRoundTrip | src/services/api.js:82-83 | the query string after "?" parses back to exactly the truthy filters |
| Api.Spread | src/services/api.js:11-15 | in an object spread a name of the later object wins, and every other name keeps its earlier value |
| Api.DefaultHeaders | src/services/api.js:11-13 | JSON content type always; `Authorization: Bearer <token>` iff a token is stored; nothing else |
| Api.ConfigAsWritten | src/services/api.js:10-17 | method and body come from the options; caller headers replace the merged headers completely |
| Api.HeadersOptionDropsDefaults | src/services/api.js:14-16 | with a token, caller headers lose both the authorization and the content type |
| Api.ConfigMerged | src/services/api.js:10-15 | caller headers override defaults name by name, so a stored token still authorises the request |
| Api.ConfigsAgree | src/services/api.js:86-101 | without caller headers, which is every call the client makes, the two readings agree |
| Api.ApiRequest | src/services/api.js:7-20 | the URL is the base URL followed by the endpoint; method and body come from the options; the headers are the defaults without caller headers, and exactly the caller's headers otherwise; without caller headers the configuration is the corrected one |
| Api.Outcome | src/services/api.js:23-27 | ok gives the data; otherwise the error message is the server's message, or "Something went wrong" |
| Api.GetAllRequest | src/services/api.js:83 | a GET of the tasks endpoint with the default headers |
| Api.UpdateRequest | src/services/api.js:92-96 | a PUT to "/tasks/" + id carrying the updates |
| Api.DeleteRequest | src/services/api.js:98-101 | a DELETE to "/tasks/" + id without a body |
| Api.CreateRequest | src/services/api.js:86-90 | a POST of the task data to "/tasks" |
| Api.TaskUrlIdentifiesTask | src/services/api.js:92-101 | the id can be read back from the URL, and update and delete of one task target the same URL |
| Api.FormJsonInjective | src/services/api.js:89 | different task forms give different request bodies |

## Findings

| source | as written | input that shows it | evidently intended | confidence | as-written member | corrected member |
|---|---|---|---|---|---|---|
| src/services/api.js:10-17 | `...options` comes after `headers`, so a caller's `headers` replaces the whole merged headers object | stored token "t0k3n", options `{method: 'PUT', headers: {'X-Trace': '1'}}`: neither `Authorization` nor `Content-Type` is sent | caller headers merged over the defaults, keeping the bearer token | medium, not executed; no call in the client passes headers, so it is latent | Api.HeadersOptionDropsDefaults | Api.ConfigMerged |

`Api.ApiRequest` builds the configuration as the code does. Every request the client builds passes
no headers of its own. `Api.ConfigsAgree` shows that, for such requests, the as-written and the
corrected configurations are the same.

## Left out

- Rendering, modals, CSS beyond the badge and priority mappings, and chart.js options are not modelled. They are UI.
- React's effect scheduling is not modelled. Each effect is a method run when its dependencies change. `DataLoaded` stands for the `[searchParams, teams]` effect re-running after a load.
- `fetch`, `response.json()`, `localStorage`, `toast` and `window.confirm` are external. The token, the fetched collections and the success or failure of a request are parameters. A confirmed deletion is the only deletion modelled.
- The authentication context, routing and the navigation bar are not part of this model.
- API calls other than the task requests and `apiRequest` are not modelled one by one: auth, users, teams, projects, tags, reports and health. Each is a plain `apiRequest` of a fixed path.
- `teamsAPI.addMember`, called when a member is added to a team, does not exist in the client's API module. The member form is not modelled.
- Timestamps are integers in milliseconds. "Recent" means at most 7 × 86400000 ms before `now`; `setDate(-7)` in local time is not modelled, so daylight-saving shifts are ignored.
- Last-week buckets use whole UTC days since the epoch. `toDateString` compares local calendar days, so time zones are not modelled.
- `timeToComplete` is a `real`, and sums and comparisons are exact. Floating-point rounding of the sums is not modelled.
- Aggregate.CompletionPercentage: `Math.round` of the floating-point quotient is modelled as exact rational rounding with halves rounded up. The results could differ only where floating-point error crosses a half.
- Query.Serialize: `URLSearchParams` percent-encoding is not modelled. The round-trip lemmas require names and values free of `&` and `=`.
- Text.ToLower: only ASCII letters are lower-cased. `toLowerCase`'s full Unicode case mapping is not modelled.
- Text.Trim: the white-space set is the JavaScript WhiteSpace and LineTerminator characters.
- Text.StrLeTotal: strings are compared by code point. JavaScript compares UTF-16 code units, which differs only for characters outside the Basic Multilingual Plane.
- Sorting.SortTasks: the source's comparator never returns 0, which makes `Array.prototype.sort`'s order implementation-defined. The model sorts by insertion. It promises only an ordered permutation, and says nothing about the relative order of tied keys.
- Reports: the `tasks` field of the last-week and pending reports is modelled as the task list itself. `byTeam`, `byProject` and `byOwner` are modelled as their `Object.entries` sequences.
- Reports.PendingWorkChart: the chart shows only the days of work per status. The counts are kept in `Reports.PendingStats`.
- TaskList: on mount, `loadData` writes the whole unfiltered, unsorted collection into the list (`DataLoaded`). At the same time the filters reaction runs `loadTasks`, which writes the filtered, sorted list (`FiltersChanged`, then `TasksLoaded`). Both transitions exist and may run in either order, so the model promises nothing about which response decides the list. With filters in the URL the screen can show every task, unsorted.
- The dashboard's `tags || []` fallback on submit cannot fire, because the form state always holds a list. `Number(timeToComplete)` is the identity on the model's numeric field.
- TaskDetails: editing the form field by field is not modelled. `FormOf` sets the form only when a task is loaded. The key order of the update body is not modelled.
- The dashboard's request for the user's own tasks (`getAll({owner})`) is not modelled separately. It is a `GetAllRequest` with one filter.
