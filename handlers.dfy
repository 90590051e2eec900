/** The asana HTTP handlers: `/asana/projects` lists the projects of the user's
    first workspace, `/asana/projects/{gid}/tasks` pages through a project's
    tasks with a rich field list and passes the task objects through as they
    come, and `extractCustom` reads one custom field of a task. */
module Handlers {
  import opened Base
  import opened Store
  import opened OAuth
  import opened Pagination
  import opened Asana

  // ---------------------------------------------------------------------------
  // extractCustom
  // ---------------------------------------------------------------------------

  /** A JSON value of a custom-field object, as far as `extractCustom` looks:
      a string, or anything else. */
  datatype Value = Str(s: string) | Other

  type JsonObject = map<string, Value>

  /** The string a key holds, or "" when the key is absent or not a string (the
      unchecked type assertion `v, _ := x.(string)`). */
  function StringAt(cf: JsonObject, key: string): string
  {
    if key in cf && cf[key].Str? then cf[key].s else ""
  }

  /** An entry `extractCustom` returns: its name is the wanted one and its
      `display_value` is a non-empty string. */
  predicate Qualifies(cf: JsonObject, want: string)
  {
    StringAt(cf, "name") == want && StringAt(cf, "display_value") != ""
  }

  /** The index of the first qualifying entry, or |cfList| if none qualifies. */
  function FirstQualifying(cfList: seq<JsonObject>, want: string): (k: nat)
    ensures k <= |cfList|
    ensures k < |cfList| ==> Qualifies(cfList[k], want)
    ensures forall j :: 0 <= j < k ==> !Qualifies(cfList[j], want)
  {
    if |cfList| == 0 then 0
    else if Qualifies(cfList[0], want) then 0
    else 1 + FirstQualifying(cfList[1..], want)
  }

  /** `extractCustom`: the display value of the first entry named `want` that
      has a non-empty one; entries with that name but no display value are
      skipped. */
  method ExtractCustom(cfList: seq<JsonObject>, want: string) returns (v: string, found: bool)
    ensures found <==> exists i :: 0 <= i < |cfList| && Qualifies(cfList[i], want)
    ensures found ==> v == StringAt(cfList[FirstQualifying(cfList, want)], "display_value") && v != ""
    ensures !found ==> v == ""
  {
    for i := 0 to |cfList|
      invariant forall j :: 0 <= j < i ==> !Qualifies(cfList[j], want)
    {
      var cf := cfList[i];
      if StringAt(cf, "name") == want {
        var d := StringAt(cf, "display_value");
        if d != "" {
          assert FirstQualifying(cfList, want) == i;
          return d, true;
        }
      }
    }
    return "", false;
  }

  // ---------------------------------------------------------------------------
  // GET /asana/projects
  // ---------------------------------------------------------------------------

  datatype Workspace = Workspace(gid: string, name: string)

  /** The decoded `/users/me` reply: `data.workspaces`. */
  datatype MeWorkspaces = MeWorkspaces(workspaces: seq<Workspace>)

  datatype Project = Project(gid: string, name: string)

  const MeQuery: Query := map["opt_fields" := "workspaces.name"]

  function ProjectsQuery(workspace: string): Query
  {
    map["workspace" := workspace, "archived" := "false", "opt_fields" := "name", "limit" := "100"]
  }

  /** The first workspace's gid, or "" when the user has none. */
  function ChosenWorkspace(me: MeWorkspaces): string
  {
    if |me.workspaces| > 0 then me.workspaces[0].gid else ""
  }

  /** The projects handler: two `asanaGET`s, each resolving the tokens anew;
      either failure is a 502 with the error's text. */
  function Projects(t: Tables, env: Env, sid: string, now: int, te: TokenEndpoint,
                    meApi: GetRequest -> Upstream<MeWorkspaces>, projectsApi: GetRequest -> Upstream<seq<Project>>)
    : Step<Reply<seq<Project>>>
  {
    var g := Get(t, env, sid, now, te, "/users/me", MeQuery, meApi);
    match g.value
    case Err(e) => Step(Fail(502, Message(e)), g.tables)
    case Ok(me) =>
      var g2 := Get(g.tables, env, sid, now, te, "/projects", ProjectsQuery(ChosenWorkspace(me)), projectsApi);
      match g2.value
      case Err(e) => Step(Fail(502, Message(e)), g2.tables)
      case Ok(ps) => Step(Json(ps), g2.tables)
  }

  method HandleAsanaProjects(db: Db, env: Env, sid: string, now: int, te: TokenEndpoint,
                             meApi: GetRequest -> Upstream<MeWorkspaces>, projectsApi: GetRequest -> Upstream<seq<Project>>)
    returns (reply: Reply<seq<Project>>)
    requires db.Valid()
    modifies db
    ensures db.Valid()
    ensures Step(reply, db.Snapshot()) == Projects(old(db.Snapshot()), env, sid, now, te, meApi, projectsApi)
  {
    var me := AsanaGet(db, env, sid, now, te, "/users/me", MeQuery, meApi);
    if me.Err? {
      return Fail(502, Message(me.error));
    }
    var ws := ChosenWorkspace(me.value);
    var resp := AsanaGet(db, env, sid, now, te, "/projects", ProjectsQuery(ws), projectsApi);
    if resp.Err? {
      return Fail(502, Message(resp.error));
    }
    reply := Json(resp.value);
  }

  /** A failed `/users/me` call short-circuits: the reply is 502 with its error
      text and the projects endpoint is never asked. */
  lemma ProjectsMeFailure(t: Tables, env: Env, sid: string, now: int, te: TokenEndpoint,
                          meApi: GetRequest -> Upstream<MeWorkspaces>,
                          projectsApi: GetRequest -> Upstream<seq<Project>>, projectsApi': GetRequest -> Upstream<seq<Project>>)
    requires Get(t, env, sid, now, te, "/users/me", MeQuery, meApi).value.Err?
    ensures var g := Get(t, env, sid, now, te, "/users/me", MeQuery, meApi);
            && Projects(t, env, sid, now, te, meApi, projectsApi) == Step(Fail(502, Message(g.value.error)), g.tables)
            && Projects(t, env, sid, now, te, meApi, projectsApi') == Projects(t, env, sid, now, te, meApi, projectsApi)
  {
  }

  /** Once `/users/me` answers, the projects request names the first
      workspace (or the empty workspace when there is none) with the fixed
      filters, and the reply is the projects list exactly when that request
      succeeds. */
  lemma ProjectsWorkspaceChoice(t: Tables, env: Env, sid: string, now: int, te: TokenEndpoint,
                                meApi: GetRequest -> Upstream<MeWorkspaces>, projectsApi: GetRequest -> Upstream<seq<Project>>)
    requires Get(t, env, sid, now, te, "/users/me", MeQuery, meApi).value.Ok?
    ensures var g := Get(t, env, sid, now, te, "/users/me", MeQuery, meApi);
            var me := g.value.value;
            var ws := ChosenWorkspace(me);
            var g2 := Get(g.tables, env, sid, now, te, "/projects", ProjectsQuery(ws), projectsApi);
            var r := Projects(t, env, sid, now, te, meApi, projectsApi);
            && ws == (if |me.workspaces| > 0 then me.workspaces[0].gid else "")
            && ProjectsQuery(ws)["workspace"] == ws
            && ProjectsQuery(ws)["archived"] == "false"
            && r.tables == g2.tables
            && (r.value.Json? <==> g2.value.Ok?)
            && (g2.value.Ok? ==> r.value == Json(g2.value.value))
            && (g2.value.Err? ==> r.value == Fail(502, Message(g2.value.error)))
  {
  }

  /** Every outcome of the projects handler is the list or a 502. */
  lemma ProjectsReplies(t: Tables, env: Env, sid: string, now: int, te: TokenEndpoint,
                        meApi: GetRequest -> Upstream<MeWorkspaces>, projectsApi: GetRequest -> Upstream<seq<Project>>)
    ensures var r := Projects(t, env, sid, now, te, meApi, projectsApi).value;
            r.Json? || (r.Fail? && r.status == 502)
  {
  }

  // ---------------------------------------------------------------------------
  // GET /asana/projects/{gid}/tasks
  // ---------------------------------------------------------------------------

  /** The fields the task listing asks for. */
  const TaskFields: seq<string> := [
    "name", "completed", "completed_at", "created_at", "due_on", "due_at",
    "assignee.gid", "assignee.name",
    "created_by.gid", "created_by.name",
    "permalink_url",
    "memberships.section.name", "memberships.project.name",
    "custom_fields.name", "custom_fields.type", "custom_fields.display_value",
    "custom_fields.enum_value.name", "custom_fields.enum_value.color",
    "custom_fields.number_value", "custom_fields.text_value"]

  /** `strings.Join`. */
  function Join(xs: seq<string>, sep: string): string
  {
    if |xs| == 0 then "" else if |xs| == 1 then xs[0] else xs[0] + sep + Join(xs[1..], sep)
  }

  function ProjectTasksQuery(): Query
  {
    map["limit" := "50", "opt_fields" := Join(TaskFields, ",")]
  }

  /** The tasks handler, given the outcome of each page's `asanaGET`. The task
      objects are of any type T: they are passed through uninspected. */
  method HandleAsanaProjectTasks<T>(gid: string, replies: seq<Result<Page<T>>>)
    returns (reply: Reply<seq<T>>, sent: seq<ApiCall>)
    requires gid == "" || Settles(replies)
    ensures gid == "" ==> reply == Fail(400, "missing project gid") && sent == []
    ensures gid != "" ==>
              && (match Listing(replies)
                  case Err(e) => reply == Fail(502, Message(e))
                  case Ok(items) => reply == Json(items))
              && |sent| == FirstEnd(replies) + 1
              && (forall j :: 0 <= j < |sent| ==> sent[j].path == TasksPath(gid))
              && sent[0].query == ProjectTasksQuery()
              && (forall j :: 0 < j < |sent| ==>
                    sent[j].query == ProjectTasksQuery()["offset" := replies[j - 1].value.nextPage.value.offset])
  {
    if gid == "" {
      return Fail(400, "missing project gid"), [];
    }
    var r;
    r, sent := FetchAll(TasksPath(gid), ProjectTasksQuery(), replies);
    if r.Err? {
      reply := Fail(502, Message(r.error));
    } else {
      reply := Json(r.value);
    }
  }
}
