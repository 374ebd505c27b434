/** The request side of the HTTP client: endpoint and query-string construction, header and
    configuration assembly, and the choice of error message on a failed response. The network
    itself is outside the model: a request is a value, and a response is given as a parameter. */
module Api {
  import opened Wrappers
  import opened Lists
  import opened Records
  import opened Query

  const ApiBaseUrl := "http://localhost:5000/api"

  /** A JSON document, as `JSON.stringify` would write it. */
  datatype Json =
    | JNull
    | JBool(b: bool)
    | JNumber(n: real)
    | JString(s: string)
    | JArray(items: seq<Json>)
    | JObject(fields: seq<(string, Json)>)

  /** The options a caller hands to `apiRequest`. */
  datatype Options = Options(httpMethod: Option<string>, headers: Option<Params>, body: Option<Json>)

  /** The `fetch` configuration `apiRequest` builds. */
  datatype Config = Config(httpMethod: Option<string>, headers: Params, body: Option<Json>)

  datatype Request = Request(url: string, config: Config)

  /** The `tasksAPI.getAll` loop: every truthy filter is appended, in the order of the entries. */
  method BuildTasksQuery(filters: seq<(string, string)>) returns (q: Params)
    ensures q == NonEmpty(filters)
  {
    q := [];
    var i := 0;
    while i < |filters|
      invariant 0 <= i <= |filters|
      invariant q == NonEmpty(filters[..i])
    {
      var (k, v) := filters[i];
      assert filters[..i + 1] == filters[..i] + [filters[i]];
      FilterAppend(filters[..i], [filters[i]], HasValue());
      if v != "" {
        q := q + [(k, v)];
      }
      i := i + 1;
    }
    assert filters[..i] == filters;
  }

  /** The endpoint `tasksAPI.getAll(filters)` requests: `/tasks`, followed by `?` and the query
      string only when some filter is truthy. */
  function TasksEndpoint(filters: seq<(string, string)>): (e: string)
    ensures e == "/tasks" <==> forall f :: f in filters ==> f.1 == ""
    ensures NonEmpty(filters) != [] ==> e == "/tasks?" + Serialize(NonEmpty(filters))
  {
    FilterEmpty(filters, HasValue());
    var queryString := Serialize(NonEmpty(filters));
    "/tasks" + if queryString != "" then "?" + queryString else ""
  }

  /** `tasksAPI.getAll(filters)` as the method the source runs: the loop, then the endpoint. */
  method TasksGetAllEndpoint(filters: seq<(string, string)>) returns (endpoint: string)
    ensures endpoint == TasksEndpoint(filters)
  {
    var q := BuildTasksQuery(filters);
    var queryString := Serialize(q);
    endpoint := "/tasks" + if queryString != "" then "?" + queryString else "";
  }

  /** Reading the query string of the endpoint back gives exactly the truthy filters. */
  lemma TasksQueryRoundTrip(filters: seq<(string, string)>)
    requires Plain(filters)
    requires NonEmpty(filters) != []
    ensures var e := TasksEndpoint(filters); |e| > 7 && Parse(e[7..]) == NonEmpty(filters)
  {
    var kept := NonEmpty(filters);
    assert Plain(kept) by {
      forall i | 0 <= i < |kept|
        ensures '&' !in kept[i].0 && '=' !in kept[i].0 && '&' !in kept[i].1 && '=' !in kept[i].1
      {
        assert kept[i] in filters;
        var j :| 0 <= j < |filters| && filters[j] == kept[i];
      }
    }
    ParseSerialize(kept);
    var e := TasksEndpoint(filters);
    assert e == "/tasks?" + Serialize(kept);
    assert e[7..] == Serialize(kept);
  }

  /** `{ ...base, ...extra }` on objects given by their entries: a name of `extra` takes its value
      from `extra`, any other name keeps the value it has in `base`. */
  function Spread(base: Params, extra: Params): (r: Params)
    requires DistinctKeys(extra)
    ensures forall k :: Get(r, k) == if Get(extra, k).Some? then Get(extra, k) else Get(base, k)
    decreases |extra|
  {
    if extra == [] then base
    else
      var (k0, v0) := extra[0];
      assert Get(extra[1..], k0).None? by {
        forall i | 0 <= i < |extra[1..]| ensures extra[1..][i].0 != k0 {
          assert extra[1..][i] == extra[i + 1];
        }
      }
      assert DistinctKeys(extra[1..]) by {
        forall i, j | 0 <= i < j < |extra[1..]| ensures extra[1..][i].0 != extra[1..][j].0 {
          assert extra[1..][i] == extra[i + 1] && extra[1..][j] == extra[j + 1];
        }
      }
      Spread(Set(base, k0, v0), extra[1..])
  }

  /** A token is present when it is a non-empty string. */
  predicate HasToken(token: Option<string>) {
    token.Some? && token.value != ""
  }

  /** The default headers: JSON content, and a bearer token when one is stored. */
  function DefaultHeaders(token: Option<string>): (h: Params)
    ensures Get(h, "Content-Type") == Some("application/json")
    ensures HasToken(token) ==> Get(h, "Authorization") == Some("Bearer " + token.value)
    ensures !HasToken(token) ==> Get(h, "Authorization").None?
    ensures forall k :: k != "Content-Type" && k != "Authorization" ==> Get(h, k).None?
  {
    var auth := if HasToken(token) then [("Authorization", "Bearer " + token.value)] else [];
    Spread([("Content-Type", "application/json")], auth)
  }

  /** The configuration `apiRequest` builds, as written: the defaults spread with the caller's
      headers, after which `...options` overwrites the merged `headers` with the caller's own. */
  function ConfigAsWritten(token: Option<string>, options: Options): (c: Config)
    requires options.headers.Some? ==> DistinctKeys(options.headers.value)
    ensures c.httpMethod == options.httpMethod && c.body == options.body
    ensures options.headers.None? ==> c.headers == DefaultHeaders(token)
    ensures options.headers.Some? ==> c.headers == options.headers.value
  {
    var merged := Spread(DefaultHeaders(token), options.headers.GetOr([]));
    Config(options.httpMethod, if options.headers.Some? then options.headers.value else merged, options.body)
  }

  /** With a token stored, a caller that passes any headers of its own loses both default headers. */
  lemma HeadersOptionDropsDefaults()
    ensures var c := ConfigAsWritten(Some("t0k3n"), Options(Some("PUT"), Some([("X-Trace", "1")]), None));
      Get(c.headers, "Authorization").None? && Get(c.headers, "Content-Type").None?
  {
    var extra := [("X-Trace", "1")];
    assert Get(extra, "Authorization").None? && Get(extra, "Content-Type").None?;
  }

  /** The configuration the merge evidently intends: the merged headers are kept. */
  function ConfigMerged(token: Option<string>, options: Options): (c: Config)
    requires options.headers.Some? ==> DistinctKeys(options.headers.value)
    ensures c.httpMethod == options.httpMethod && c.body == options.body
    ensures forall k ::
              Get(c.headers, k) == if options.headers.Some? && Get(options.headers.value, k).Some?
                then Get(options.headers.value, k) else Get(DefaultHeaders(token), k)
    ensures HasToken(token) && (options.headers.None? || Get(options.headers.value, "Authorization").None?) ==>
      Get(c.headers, "Authorization") == Some("Bearer " + token.value)
  {
    Config(options.httpMethod, Spread(DefaultHeaders(token), options.headers.GetOr([])), options.body)
  }

  /** Every call the client makes passes no headers of its own, and there both readings agree. */
  lemma ConfigsAgree(token: Option<string>, options: Options)
    requires options.headers.None?
    ensures ConfigAsWritten(token, options) == ConfigMerged(token, options)
  {
  }

  /** The request `apiRequest(endpoint, options)` sends, with the configuration as the code builds it:
      the base URL followed by the endpoint, the caller's method and body, and the default headers
      unless the caller passes headers of its own, which then replace them. */
  function ApiRequest(endpoint: string, options: Options, token: Option<string>): (r: Request)
    requires options.headers.Some? ==> DistinctKeys(options.headers.value)
    ensures r.url == ApiBaseUrl + endpoint
    ensures r.config.httpMethod == options.httpMethod && r.config.body == options.body
    ensures options.headers.None? ==> r.config.headers == DefaultHeaders(token)
    ensures options.headers.Some? ==> r.config.headers == options.headers.value
    ensures options.headers.None? ==> r.config == ConfigMerged(token, options)
  {
    Request(ApiBaseUrl + endpoint, ConfigAsWritten(token, options))
  }

  /** The outcome of a response: its data when `ok`, otherwise an error carrying the server's
      message, or "Something went wrong" when the server gave none. */
  function Outcome<T>(ok: bool, data: T, message: Option<string>): (r: Result<T>)
    ensures r.Ok? <==> ok
    ensures r.Ok? ==> r.value == data
    ensures r.Err? ==> r.message != ""
    ensures r.Err? && message.Some? && message.value != "" ==> r.message == message.value
    ensures r.Err? && !(message.Some? && message.value != "") ==> r.message == "Something went wrong"
  {
    if ok then Ok(data)
    else Err(if message.Some? && message.value != "" then message.value else "Something went wrong")
  }

  /** `tasksAPI.getAll(filters)`: a plain GET of the tasks endpoint. */
  function GetAllRequest(filters: seq<(string, string)>, token: Option<string>): (r: Request)
    ensures r.url == ApiBaseUrl + TasksEndpoint(filters)
    ensures r.config.httpMethod.None? && r.config.body.None?
    ensures r.config.headers == DefaultHeaders(token)
  {
    ApiRequest(TasksEndpoint(filters), Options(None, None, None), token)
  }

  /** The path of one task. */
  function TaskPath(id: string): string {
    "/tasks/" + id
  }

  /** `tasksAPI.update(id, updates)`: a PUT of the updates to the task's path. */
  function UpdateRequest(id: string, updates: Json, token: Option<string>): (r: Request)
    ensures r.url == ApiBaseUrl + "/tasks/" + id
    ensures r.config.httpMethod == Some("PUT") && r.config.body == Some(updates)
  {
    ApiRequest(TaskPath(id), Options(Some("PUT"), None, Some(updates)), token)
  }

  /** `tasksAPI.delete(id)`: a DELETE of the task's path, without a body. */
  function DeleteRequest(id: string, token: Option<string>): (r: Request)
    ensures r.url == ApiBaseUrl + "/tasks/" + id
    ensures r.config.httpMethod == Some("DELETE") && r.config.body.None?
  {
    ApiRequest(TaskPath(id), Options(Some("DELETE"), None, None), token)
  }

  /** `tasksAPI.create(taskData)`: a POST of the task data to `/tasks`. */
  function CreateRequest(taskData: TaskForm, token: Option<string>): (r: Request)
    ensures r.url == ApiBaseUrl + "/tasks"
    ensures r.config.httpMethod == Some("POST") && r.config.body == Some(FormJson(taskData))
  {
    ApiRequest("/tasks", Options(Some("POST"), None, Some(FormJson(taskData))), token)
  }

  /** The task id can be read back from the URL of an update or a delete, so distinct tasks are
      never confused, and both requests for one task target the same URL. */
  lemma TaskUrlIdentifiesTask(id: string, updates: Json, token: Option<string>)
    ensures var u := UpdateRequest(id, updates, token).url;
      |u| >= |ApiBaseUrl| + 7 && u[|ApiBaseUrl| + 7..] == id
    ensures DeleteRequest(id, token).url == UpdateRequest(id, updates, token).url
  {
    var u := UpdateRequest(id, updates, token).url;
    assert u == ApiBaseUrl + "/tasks/" + id;
  }

  function StringsJson(s: seq<string>): (r: seq<Json>)
    ensures |r| == |s|
    ensures forall i :: 0 <= i < |s| ==> r[i] == JString(s[i])
  {
    if s == [] then [] else [JString(s[0])] + StringsJson(s[1..])
  }

  /** `JSON.stringify(taskData)` for the task form, field by field. */
  function FormJson(form: TaskForm): Json {
    JObject([
      ("name", JString(form.name)),
      ("projectId", JString(form.projectId)),
      ("teamId", JString(form.teamId)),
      ("owners", JArray(StringsJson(form.owners))),
      ("timeToComplete", JNumber(form.timeToComplete)),
      ("tags", JArray(StringsJson(form.tags))),
      ("status", JString(form.status))])
  }

  /** Serialising the form loses nothing: different forms give different bodies. */
  lemma FormJsonInjective(a: TaskForm, b: TaskForm)
    requires FormJson(a) == FormJson(b)
    ensures a == b
  {
    var fa, fb := FormJson(a).fields, FormJson(b).fields;
    assert fa[3] == fb[3] && fa[5] == fb[5];
    StringsInjective(a.owners, b.owners);
    StringsInjective(a.tags, b.tags);
  }

  lemma StringsInjective(a: seq<string>, b: seq<string>)
    requires StringsJson(a) == StringsJson(b)
    ensures a == b
  {
    assert |a| == |b|;
    forall i | 0 <= i < |a| ensures a[i] == b[i] {
      assert StringsJson(a)[i] == StringsJson(b)[i];
    }
  }
}
