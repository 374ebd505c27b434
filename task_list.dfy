/** The task list screen: five filters kept in step with the URL, the filtered request, the
    in-place sort of the received tasks, and the task-creation form. */
module TaskList {
  import opened Wrappers
  import opened Lists
  import opened Records
  import opened Query
  import opened Sorting
  import opened FormEditing
  import Text
  import Api

  /** The filter criteria of the task list; "" means no constraint. */
  datatype TaskFilters = TaskFilters(team: string, project: string, status: string, owner: string, tags: string)

  const ClearedFilters := TaskFilters("", "", "", "", "")

  /** `Object.entries(filters)`, in the object's key order. */
  function Entries(f: TaskFilters): seq<(string, string)> {
    [("team", f.team), ("project", f.project), ("status", f.status), ("owner", f.owner), ("tags", f.tags)]
  }

  lemma EntriesDistinct(f: TaskFilters)
    ensures DistinctKeys(Entries(f))
  {
  }

  /** The initial filters, read from the URL; a missing parameter reads as "". */
  function ReadFilters(p: Params): TaskFilters {
    TaskFilters(GetOrEmpty(p, "team"), GetOrEmpty(p, "project"), GetOrEmpty(p, "status"),
      GetOrEmpty(p, "owner"), GetOrEmpty(p, "tags"))
  }

  /** The query the filter effect writes: one pair per non-empty filter. */
  function FiltersQuery(f: TaskFilters): (p: Params)
    ensures forall k :: Get(p, k).Some? <==> GetOrEmpty(Entries(f), k) != ""
    ensures forall k :: GetOrEmpty(p, k) == GetOrEmpty(Entries(f), k)
    ensures forall e :: e in p <==> e in Entries(f) && e.1 != ""
  {
    EntriesDistinct(f);
    forall k ensures GetOrEmpty(NonEmpty(Entries(f)), k) == GetOrEmpty(Entries(f), k)
      ensures Get(NonEmpty(Entries(f)), k).Some? <==> GetOrEmpty(Entries(f), k) != "" {
      GetNonEmpty(Entries(f), k);
    }
    NonEmpty(Entries(f))
  }

  /** Reading the written query back reproduces the filters. */
  lemma ReadWrittenFilters(f: TaskFilters)
    ensures ReadFilters(FiltersQuery(f)) == f
  {
    var e := Entries(f);
    GetFirst(e, "team", 0);
    GetFirst(e, "project", 1);
    GetFirst(e, "status", 2);
    GetFirst(e, "owner", 3);
    GetFirst(e, "tags", 4);
  }

  /** The same holds through the query string: serialising and parsing the URL loses nothing,
      provided no filter value needs percent-encoding. */
  lemma UrlRoundTrip(f: TaskFilters)
    requires Plain(Entries(f))
    ensures ReadFilters(Parse(Serialize(FiltersQuery(f)))) == f
  {
    var q := FiltersQuery(f);
    assert Plain(q) by {
      forall i | 0 <= i < |q|
        ensures '&' !in q[i].0 && '=' !in q[i].0 && '&' !in q[i].1 && '=' !in q[i].1
      {
        assert q[i] in Entries(f);
        var j :| 0 <= j < |Entries(f)| && Entries(f)[j] == q[i];
      }
    }
    ParseSerialize(q);
    ReadWrittenFilters(f);
  }

  /** `Object.fromEntries(Object.entries(filters).filter(([_, value]) => value !== ''))`. */
  function CleanFilters(f: TaskFilters): (r: seq<(string, string)>)
    ensures forall e :: e in r <==> e in Entries(f) && e.1 != ""
    ensures |r| <= 5
  {
    Filter(Entries(f), HasValue())
  }

  /** Cleaning changes nothing about the request: `getAll` drops empty values itself. */
  lemma CleanFiltersEndpoint(f: TaskFilters)
    ensures Api.TasksEndpoint(CleanFilters(f)) == Api.TasksEndpoint(Entries(f))
  {
    FilterTwice(Entries(f), HasValue(), HasValue(), HasValue());
  }

  /** The request carries no query string exactly when every filter is cleared. */
  lemma BareEndpoint(f: TaskFilters)
    ensures Api.TasksEndpoint(Entries(f)) == "/tasks" <==> f == ClearedFilters
  {
    var e := Entries(f);
    assert e[0] in e && e[1] in e && e[2] in e && e[3] in e && e[4] in e;
  }

  /** The screen's state. `descending` stands for `sortOrder === 'desc'`, which nothing changes. */
  class TaskListState {
    var filters: TaskFilters
    var params: Params
    var tasks: seq<Task>
    var formData: TaskForm
    var availableTags: seq<string>
    var newTag: string
    var error: string
    var sortBy: SortField
    var descending: bool

    /** First render: filters read from the URL, newest first, an empty form. */
    constructor (url: Params)
      ensures filters == ReadFilters(url) && params == url && tasks == []
      ensures formData == EmptyTaskForm && availableTags == DefaultTags && newTag == "" && error == ""
      ensures sortBy == CreatedAt && descending
    {
      filters := ReadFilters(url);
      params := url;
      tasks := [];
      formData := EmptyTaskForm;
      availableTags := DefaultTags;
      newTag := "";
      error := "";
      sortBy := CreatedAt;
      descending := true;
    }

    /** The effect on `[filters]`: the query becomes the non-empty filters, and `loadTasks`
        requests the tasks endpoint for the cleaned filters, which is returned. */
    method FiltersChanged(f: TaskFilters) returns (endpoint: string)
      modifies this`filters, this`params
      ensures filters == f && params == FiltersQuery(f)
      ensures endpoint == Api.TasksEndpoint(Entries(f))
      ensures tasks == old(tasks) && formData == old(formData) && sortBy == old(sortBy)
    {
      filters := f;
      EntriesDistinct(f);
      params := SetNonEmpty(Entries(f));
      endpoint := Api.TasksGetAllEndpoint(CleanFilters(f));
      CleanFiltersEndpoint(f);
    }

    /** `clearFilters`: all five filters back to "", which is a filters change. */
    method ClearFilters() returns (endpoint: string)
      modifies this`filters, this`params
      ensures filters == ClearedFilters && params == []
      ensures endpoint == "/tasks"
      ensures tasks == old(tasks) && formData == old(formData) && sortBy == old(sortBy)
    {
      endpoint := FiltersChanged(ClearedFilters);
      BareEndpoint(ClearedFilters);
    }

    /** The tail of `loadTasks`: the received array is sorted in place by the current field and
        direction and becomes the list. */
    method TasksLoaded(data: array<Task>)
      modifies this`tasks, data
      ensures Sorted(tasks, sortBy, descending)
      ensures multiset(tasks) == multiset(old(data[..]))
      ensures tasks == data[..]
      ensures filters == old(filters) && params == old(params) && formData == old(formData)
    {
      SortTasks(data, sortBy, descending);
      tasks := data[..];
    }

    /** The tail of `loadData`, run once on mount: the whole unfiltered collection becomes the
        list as received, without sorting. It races with the filtered load of `FiltersChanged`
        and `TasksLoaded`; whichever response arrives last decides the list. */
    method DataLoaded(data: seq<Task>)
      modifies this`tasks
      ensures tasks == data
      ensures filters == old(filters) && params == old(params) && formData == old(formData) && sortBy == old(sortBy)
    {
      tasks := data;
    }

    /** The sort select: only `sortBy` changes; the list is re-sorted at the next load. */
    method SortByChanged(field: SortField)
      modifies this`sortBy
      ensures sortBy == field
    {
      sortBy := field;
    }

    /** `handleOwnerToggle(ownerId)`: only the form's owner list changes. */
    method OwnerToggle(ownerId: string)
      modifies this`formData
      ensures formData == old(formData).(owners := Toggle(old(formData).owners, ownerId))
    {
      formData := formData.(owners := Toggle(formData.owners, ownerId));
    }

    /** `handleTagToggle(tag)`: only the form's tag list changes. */
    method TagToggle(tag: string)
      modifies this`formData
      ensures formData == old(formData).(tags := Toggle(old(formData).tags, tag))
    {
      formData := formData.(tags := Toggle(formData.tags, tag));
    }

    /** `addNewTag()`: an accepted tag is offered and selected, and the input is cleared;
        otherwise nothing changes. */
    method AddNewTag()
      modifies this`availableTags, this`formData, this`newTag
      ensures var tag := Text.Trim(old(newTag));
        if AcceptsNewTag(old(newTag), old(availableTags)) then
          availableTags == old(availableTags) + [tag] &&
          formData == old(formData).(tags := old(formData).tags + [tag]) &&
          newTag == ""
        else
          availableTags == old(availableTags) && formData == old(formData) && newTag == old(newTag)
    {
      var tag := Text.Trim(newTag);
      if tag != "" && tag !in availableTags {
        availableTags := availableTags + [tag];
        formData := formData.(tags := formData.tags + [tag]);
        newTag := "";
      }
    }

    /** `handleSubmit`: the payload is the form with `[userId]` for an empty owner list; on
        success the form is reset, on failure the error message is shown and the form kept. */
    method Submit(userId: string, failure: Option<string>) returns (payload: TaskForm)
      modifies this`formData, this`error
      ensures payload == WithDefaultOwner(old(formData), userId)
      ensures payload.owners == (if old(formData).owners == [] then [userId] else old(formData).owners)
      ensures failure.None? ==> formData == EmptyTaskForm && error == ""
      ensures failure.Some? ==> formData == old(formData) && error == failure.value
    {
      error := "";
      payload := WithDefaultOwner(formData, userId);
      if failure.Some? {
        error := failure.value;
      } else {
        formData := EmptyTaskForm;
      }
    }
  }
}
