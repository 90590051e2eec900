/** Token resolution and authenticated GETs: `tokensForRequest` joins the
    session to its asana account, refreshes the tokens when they are within two
    minutes of expiry and a refresh token exists (section 6 of RFC 6749), and
    `asanaGET` issues one bearer-authenticated call and classifies its reply.
    `listAllProjectTasks` pages through a project's tasks. */
module Asana {
  import opened Base
  import opened Store
  import opened OAuth
  import opened Pagination

  /** The `asanaTokens` record. */
  datatype TokenSet = TokenSet(accessToken: string, refreshToken: string, expiresAt: int, userId: string)

  /** The `*asanaTokens` that `refreshAsanaTokens` updates in place. */
  class Tokens {
    var accessToken: string
    var refreshToken: string
    var expiresAt: int
    var userId: string

    function Value(): TokenSet
      reads this
    {
      TokenSet(accessToken, refreshToken, expiresAt, userId)
    }

    constructor (v: TokenSet)
      ensures Value() == v
    {
      accessToken, refreshToken, expiresAt, userId := v.accessToken, v.refreshToken, v.expiresAt, v.userId;
    }
  }

  /** How long before expiry a token is refreshed, in seconds. */
  const Skew := 120

  /** The refresh rule: the clock is past `expiresAt - 2min` and there is a
      refresh token to use. */
  predicate RefreshDue(t: TokenSet, now: int)
  {
    now > t.expiresAt - Skew && t.refreshToken != ""
  }

  /** The query `sessions s join oauth_accounts oa on oa.user_id = s.user_id
      and oa.provider = 'asana' where s.id = sid`, with a null `expires_at`
      read as now. */
  function JoinTokens(t: Tables, sid: string, now: int): Option<TokenSet>
  {
    if sid in t.sessions && (t.sessions[sid], Asana) in t.oauthAccounts then
      var row := t.oauthAccounts[(t.sessions[sid], Asana)];
      Some(TokenSet(row.accessToken, row.refreshToken, if row.expiresAt.Some? then row.expiresAt.value else now, t.sessions[sid]))
    else None
  }

  /** The refresh request of section 6 of RFC 6749. */
  function RefreshForm(cfg: Config, refreshToken: string): Form
  {
    map["grant_type" := "refresh_token",
        "client_id" := cfg.clientId,
        "client_secret" := cfg.clientSecret,
        "refresh_token" := refreshToken]
  }

  /** The merge rule of a successful refresh. */
  function Merge(t: TokenSet, p: TokenPayload, now: int): TokenSet
  {
    TokenSet(p.accessToken, if p.refreshToken != "" then p.refreshToken else t.refreshToken, now + p.expiresIn, t.userId)
  }

  /** What one refresh exchange gives: an error, or the merged tokens. */
  function RefreshAttempt(t: TokenSet, reply: Upstream<TokenPayload>, now: int): Result<TokenSet>
  {
    match reply
    case TransportFailure(reason) => Err(Transport(reason))
    case Response(status, body, payload) =>
      if status != StatusOK then Err(RefreshFailed(body))
      else match payload
        case Malformed(reason) => Err(Decode(reason))
        case Parsed(p) => Ok(Merge(t, p, now))
  }

  /** `update oauth_accounts set access_token, refresh_token, expires_at
      where user_id = m.userId and provider = 'asana'`. */
  function StoreRefresh(t: Tables, m: TokenSet): Tables
  {
    var key := (m.userId, Asana);
    if key in t.oauthAccounts then
      t.(oauthAccounts := t.oauthAccounts[key := t.oauthAccounts[key].(
        accessToken := m.accessToken, refreshToken := m.refreshToken, expiresAt := Some(m.expiresAt))])
    else t
  }

  /** `tokensForRequest` as a store transition. */
  function Resolve(t: Tables, env: Env, sid: string, now: int, te: TokenEndpoint): Step<Result<TokenSet>>
  {
    if sid == "" then Step(Err(NoSession), t)
    else match JoinTokens(t, sid, now)
      case None => Step(Err(NoRows), t)
      case Some(j) =>
        if !RefreshDue(j, now) then Step(Ok(j), t)
        else match RefreshAttempt(j, te(RefreshForm(LoadOAuth(env), j.refreshToken)), now)
          case Err(e) => Step(Err(e), t)
          case Ok(m) => Step(Ok(m), StoreRefresh(t, m))
  }

  /** `refreshAsanaTokens`: one exchange at the token endpoint; on success the
      tokens are merged into `tk` in place and written to the account row. */
  method RefreshAsanaTokens(db: Db, env: Env, tk: Tokens, now: int, te: TokenEndpoint) returns (err: Option<Error>)
    requires db.Valid()
    modifies db, tk
    ensures db.Valid()
    ensures match RefreshAttempt(old(tk.Value()), te(RefreshForm(LoadOAuth(env), old(tk.refreshToken))), now)
            case Err(e) => err == Some(e) && tk.Value() == old(tk.Value()) && db.Snapshot() == old(db.Snapshot())
            case Ok(m) => err == None && tk.Value() == m && db.Snapshot() == StoreRefresh(old(db.Snapshot()), m)
  {
    var cfg := LoadOAuth(env);
    var res := te(RefreshForm(cfg, tk.refreshToken));
    if res.TransportFailure? {
      return Some(Transport(res.reason));
    }
    if res.status != StatusOK {
      return Some(RefreshFailed(res.body));
    }
    if res.payload.Malformed? {
      return Some(Decode(res.payload.reason));
    }
    var tok := res.payload.value;
    tk.accessToken := tok.accessToken;
    if tok.refreshToken != "" {
      tk.refreshToken := tok.refreshToken;
    }
    tk.expiresAt := now + tok.expiresIn;
    var key := (tk.userId, Asana);
    if key in db.oauthAccounts {
      db.oauthAccounts := db.oauthAccounts[key := db.oauthAccounts[key].(
        accessToken := tk.accessToken, refreshToken := tk.refreshToken, expiresAt := Some(tk.expiresAt))];
    }
    err := None;
  }

  /** `tokensForRequest`: the session's asana tokens, refreshed first when due. */
  method TokensForRequest(db: Db, env: Env, sid: string, now: int, te: TokenEndpoint) returns (r: Result<Tokens>)
    requires db.Valid()
    modifies db
    ensures db.Valid()
    ensures var s := Resolve(old(db.Snapshot()), env, sid, now, te);
            && db.Snapshot() == s.tables
            && match s.value
               case Ok(v) => r.Ok? && fresh(r.value) && r.value.Value() == v
               case Err(e) => r == Err(e)
  {
    if sid == "" {
      return Err(NoSession);
    }
    var row := JoinTokens(db.Snapshot(), sid, now);
    if row.None? {
      return Err(NoRows);
    }
    var tk := new Tokens(row.value);
    if RefreshDue(tk.Value(), now) {
      var err := RefreshAsanaTokens(db, env, tk, now, te);
      if err.Some? {
        return Err(err.value);
      }
    }
    return Ok(tk);
  }

  // ---------------------------------------------------------------------------
  // asanaGET
  // ---------------------------------------------------------------------------

  /** The request `asanaGET` sends: the API base joined with the path, the query,
      and the bearer credential of section 2.1 of RFC 6750. */
  function ApiRequest(path: string, q: Query, accessToken: string): GetRequest
  {
    GetRequest(Url(ApiBase + path, q), "Bearer " + accessToken)
  }

  /** How `asanaGET` reads a reply: a transport error, a non-200 status (the
      body becomes the error text) or an undecodable body are errors. */
  function Classify<T>(reply: Upstream<T>): Result<T>
  {
    match reply
    case TransportFailure(reason) => Err(Transport(reason))
    case Response(status, body, payload) =>
      if status != StatusOK then Err(ApiRejected(body))
      else match payload
        case Malformed(reason) => Err(Decode(reason))
        case Parsed(v) => Ok(v)
  }

  /** `asanaGET` as a store transition: resolve the tokens (possibly refreshing
      them), then one GET against `api`. */
  function Get<T>(t: Tables, env: Env, sid: string, now: int, te: TokenEndpoint,
                  path: string, q: Query, api: GetRequest -> Upstream<T>): Step<Result<T>>
  {
    var s := Resolve(t, env, sid, now, te);
    match s.value
    case Err(e) => Step(Err(e), s.tables)
    case Ok(tok) => Step(Classify(api(ApiRequest(path, q, tok.accessToken))), s.tables)
  }

  method AsanaGet<T>(db: Db, env: Env, sid: string, now: int, te: TokenEndpoint,
                     path: string, q: Query, api: GetRequest -> Upstream<T>) returns (r: Result<T>)
    requires db.Valid()
    modifies db
    ensures db.Valid()
    ensures Step(r, db.Snapshot()) == Get(old(db.Snapshot()), env, sid, now, te, path, q, api)
  {
    var tr := TokensForRequest(db, env, sid, now, te);
    if tr.Err? {
      return Err(tr.error);
    }
    var res := api(ApiRequest(path, q, tr.value.accessToken));
    if res.TransportFailure? {
      return Err(Transport(res.reason));
    }
    if res.status != StatusOK {
      return Err(ApiRejected(res.body));
    }
    if res.payload.Malformed? {
      return Err(Decode(res.payload.reason));
    }
    return Ok(res.payload.value);
  }

  // ---------------------------------------------------------------------------
  // listAllProjectTasks
  // ---------------------------------------------------------------------------

  datatype Assignee = Assignee(gid: string, name: string)

  /** The `asanaTask` record; a null assignee is `None`. */
  datatype AsanaTask = AsanaTask(gid: string, completed: bool, assignee: Option<Assignee>)

  const TaskListFields := "gid,completed,assignee.gid,assignee.name"

  /** The fixed query of every page request; `completed_since` at the epoch asks
      for completed tasks too. */
  const TaskListQuery: Query := map["limit" := "50", "opt_fields" := TaskListFields, "completed_since" := "1970-01-01T00:00:00Z"]

  function TasksPath(projectGid: string): string
  {
    "/projects/" + projectGid + "/tasks"
  }

  /** `listAllProjectTasks`, given the outcome of each page's `asanaGET`. */
  method ListAllProjectTasks(projectGid: string, replies: seq<Result<Page<AsanaTask>>>)
    returns (r: Result<seq<AsanaTask>>, sent: seq<ApiCall>)
    requires Settles(replies)
    ensures r == Listing(replies)
    ensures |sent| == FirstEnd(replies) + 1
    ensures forall j :: 0 <= j < |sent| ==> sent[j].path == TasksPath(projectGid)
    ensures forall j :: 0 <= j < |sent| ==>
              && sent[j].query - {"offset"} == TaskListQuery
              && ("offset" in sent[j].query <==> j > 0)
    ensures sent[0].query == TaskListQuery
    ensures forall j :: 0 < j < |sent| ==>
              sent[j].query == TaskListQuery["offset" := replies[j - 1].value.nextPage.value.offset]
  {
    r, sent := FetchAll(TasksPath(projectGid), TaskListQuery, replies);
    assert "offset" !in TaskListQuery;
  }

  // ---------------------------------------------------------------------------
  // Properties
  // ---------------------------------------------------------------------------

  /** Resolution fails without a session cookie, and with `sql: no rows` when the
      session is unknown or its user has no asana account; neither writes. */
  lemma ResolveErrors(t: Tables, env: Env, sid: string, now: int, te: TokenEndpoint)
    ensures sid == "" ==> Resolve(t, env, sid, now, te) == Step(Err(NoSession), t)
    ensures sid != "" && (sid !in t.sessions || (t.sessions[sid], Asana) !in t.oauthAccounts) ==>
              Resolve(t, env, sid, now, te) == Step(Err(NoRows), t)
    ensures Resolve(t, env, sid, now, te).value.Err? && Resolve(t, env, sid, now, te).value.error in {NoSession, NoRows} ==>
              sid == "" || sid !in t.sessions || (t.sessions[sid], Asana) !in t.oauthAccounts
  {
  }

  /** Tokens not yet due come back as stored, whatever the token endpoint would
      say; due tokens are refreshed with the stored refresh token, and the store
      changes only when the refresh succeeds. */
  lemma ResolveDueRule(t: Tables, env: Env, sid: string, now: int, te: TokenEndpoint, te': TokenEndpoint)
    requires sid != "" && JoinTokens(t, sid, now).Some?
    ensures var j := JoinTokens(t, sid, now);
            var r := Resolve(t, env, sid, now, te);
            && (!RefreshDue(j.value, now) ==>
                  r == Step(Ok(j.value), t) && Resolve(t, env, sid, now, te') == r)
            && (RefreshDue(j.value, now) ==>
                  var reply := te(RefreshForm(LoadOAuth(env), j.value.refreshToken));
                  && (r.value.Err? <==> RefreshAttempt(j.value, reply, now).Err?)
                  && (r.value.Err? ==> r.tables == t)
                  && (r.value.Ok? ==>
                        && reply.Response? && reply.status == StatusOK && reply.payload.Parsed?
                        && r.value.value == Merge(j.value, reply.payload.value, now)
                        && r.tables == StoreRefresh(t, r.value.value)))
  {
  }

  /** A row whose `expires_at` is null reads as expiring now, so it is refreshed
      whenever it has a refresh token. */
  lemma MissingExpiryIsDue(t: Tables, sid: string, now: int)
    requires sid in t.sessions && (t.sessions[sid], Asana) in t.oauthAccounts
    requires t.oauthAccounts[(t.sessions[sid], Asana)].expiresAt.None?
    ensures JoinTokens(t, sid, now).Some? && JoinTokens(t, sid, now).value.expiresAt == now
    ensures RefreshDue(JoinTokens(t, sid, now).value, now) <==> t.oauthAccounts[(t.sessions[sid], Asana)].refreshToken != ""
  {
  }

  /** A refresh reply's access token always replaces the old one, its refresh
      token only when non-empty, and the new expiry is `expires_in` from now; so a
      refreshed record keeps a refresh token, and is due again at once
      exactly when the new lifetime is under two minutes. */
  lemma RefreshedTokens(j: TokenSet, p: TokenPayload, now: int)
    requires RefreshDue(j, now)
    ensures var m := Merge(j, p, now);
            && m.accessToken == p.accessToken
            && m.refreshToken == (if p.refreshToken != "" then p.refreshToken else j.refreshToken)
            && m.refreshToken != ""
            && m.expiresAt == now + p.expiresIn
            && m.userId == j.userId
            && (RefreshDue(m, now) <==> p.expiresIn < Skew)
  {
  }

  /** The refresh write touches one row, the account of the token's user, and
      sets exactly its three token columns; every other row and table is kept. */
  lemma StoreRefreshRow(t: Tables, m: TokenSet)
    ensures var t' := StoreRefresh(t, m);
            var key := (m.userId, Asana);
            && t'.sessionsMeta == t.sessionsMeta && t'.sessions == t.sessions && t'.users == t.users
            && t'.oauthAccounts.Keys == t.oauthAccounts.Keys
            && (forall k :: k in t.oauthAccounts && k != key ==> t'.oauthAccounts[k] == t.oauthAccounts[k])
            && (key in t.oauthAccounts ==>
                  t'.oauthAccounts[key] == AccountRow(m.accessToken, m.refreshToken, t.oauthAccounts[key].scope, Some(m.expiresAt)))
  {
  }

  /** After a successful resolution, resolving the same session again reads back
      exactly the tokens it returned; if their lifetime is at least two minutes,
      no second refresh happens at the same instant. */
  lemma ResolveIsStable(t: Tables, env: Env, sid: string, now: int, te: TokenEndpoint, te': TokenEndpoint)
    requires Resolve(t, env, sid, now, te).value.Ok?
    ensures var s := Resolve(t, env, sid, now, te);
            && JoinTokens(s.tables, sid, now) == Some(s.value.value)
            && (!RefreshDue(s.value.value, now) ==> Resolve(s.tables, env, sid, now, te') == s)
  {
    var j := JoinTokens(t, sid, now).value;
    var s := Resolve(t, env, sid, now, te);
    if RefreshDue(j, now) {
      StoreRefreshRow(t, s.value.value);
    }
  }

  /** Token resolution keeps the schema's foreign keys. */
  lemma ResolveKeepsIntegrity(t: Tables, env: Env, sid: string, now: int, te: TokenEndpoint)
    requires ReferentialIntegrity(t)
    ensures ReferentialIntegrity(Resolve(t, env, sid, now, te).tables)
  {
    var s := Resolve(t, env, sid, now, te);
    if s.value.Ok? && s.tables != t {
      StoreRefreshRow(t, s.value.value);
    }
  }

  /** A record that expired a second ago with refresh token RT1, against a
      refresh reply carrying AT2 for 60 seconds and no refresh token: the caller
      gets AT2 with RT1 kept, and the row now holds the same. */
  lemma ExpiredRecordScenario(t: Tables, env: Env, now: int, te: TokenEndpoint, body: string, user: UserInfo)
    requires t.sessions == map["s1" := "u1"]
    requires ("u1", Asana) in t.oauthAccounts
    requires t.oauthAccounts[("u1", Asana)].accessToken == "AT1"
    requires t.oauthAccounts[("u1", Asana)].refreshToken == "RT1"
    requires t.oauthAccounts[("u1", Asana)].expiresAt == Some(now - 1)
    requires te(RefreshForm(LoadOAuth(env), "RT1")) == Response(200, body, Parsed(TokenPayload("AT2", 60, "bearer", "", user)))
    ensures var s := Resolve(t, env, "s1", now, te);
            && s.value == Ok(TokenSet("AT2", "RT1", now + 60, "u1"))
            && s.tables.oauthAccounts[("u1", Asana)].accessToken == "AT2"
            && s.tables.oauthAccounts[("u1", Asana)].refreshToken == "RT1"
            && s.tables.oauthAccounts[("u1", Asana)].expiresAt == Some(now + 60)
  {
    var j := JoinTokens(t, "s1", now).value;
    assert j == TokenSet("AT1", "RT1", now - 1, "u1");
    assert RefreshDue(j, now);
  }

  /** After a successful callback, the session resolves to the tokens of the
      exchange, without a refresh, until two minutes before they expire, and
      forever when the exchange gave no refresh token. */
  lemma LoginThenResolve(t: Tables, env: Env, sid: string, code: string, state: string, now: int, now': int,
                         te: TokenEndpoint, me: UsersMe, te': TokenEndpoint)
    requires Callback(t, env, sid, code, state, now, te, me).value.Redirect?
    ensures var tok := te(ExchangeForm(LoadOAuth(env), code, t.sessionsMeta[sid].codeVerifier)).payload.value;
            var t' := Callback(t, env, sid, code, state, now, te, me).tables;
            var rec := TokenSet(tok.accessToken, tok.refreshToken, now + tok.expiresIn, CallbackUser(tok, me).gid);
            && JoinTokens(t', sid, now') == Some(rec)
            && (now' <= now + tok.expiresIn - Skew || tok.refreshToken == "" ==>
                  Resolve(t', env, sid, now', te') == Step(Ok(rec), t'))
  {
    CallbackSuccess(t, env, sid, code, state, now, te, me);
  }

  /** The login scenario: start for session s1, a callback with the state of the
      authorization URL and a token endpoint answering only AT1 for an hour (no
      user, so the callback asks `/users/me`), then any later request resolves to
      AT1 expiring an hour after login, bound to the user `/users/me` named; with
      no refresh token it is never refreshed. */
  lemma LoginScenario(t: Tables, env: Env, stateDraw: Draw24, verifierDraw: Draw32, sessionDraw: Draw24, sha: Sha256,
                      code: string, now: int, now': int, te: TokenEndpoint, me: UsersMe, te': TokenEndpoint)
    requires LoadOAuth(env).clientId != "" && LoadOAuth(env).redirectUri != ""
    requires code != ""
    requires forall f :: te(f) == Response(200, "", Parsed(TokenPayload("AT1", 3600, "bearer", "", UserInfo("", "", ""))))
    ensures var l := Start(t, env, "s1", stateDraw, verifierDraw, sessionDraw, sha);
            && l.reply.Redirect?
            && l.reply.location.query["code_challenge_method"] == "S256"
            && var c := Callback(l.tables, env, "s1", code, l.reply.location.query["state"], now, te, me);
            && c.value == Redirect(PostLoginUrl(env))
            && Resolve(c.tables, env, "s1", now', te').value == Ok(TokenSet("AT1", "", now + 3600,
                 CallbackUser(TokenPayload("AT1", 3600, "bearer", "", UserInfo("", "", "")), me).gid))
  {
    StartThenCallback(t, env, "s1", stateDraw, verifierDraw, sessionDraw, sha, code, "");
    var l := Start(t, env, "s1", stateDraw, verifierDraw, sessionDraw, sha);
    var state := l.reply.location.query["state"];
    var tok := TokenPayload("AT1", 3600, "bearer", "", UserInfo("", "", ""));
    assert te(ExchangeForm(LoadOAuth(env), code, l.tables.sessionsMeta["s1"].codeVerifier)).payload.value == tok;
    LoginThenResolve(l.tables, env, "s1", code, state, now, now', te, me, te');
  }

  /** A failed token resolution is the GET's error: no API request is made
      and the answer of the API does not matter. */
  lemma GetTokenFailurePropagates<T>(t: Tables, env: Env, sid: string, now: int, te: TokenEndpoint,
                                     path: string, q: Query, api: GetRequest -> Upstream<T>, api': GetRequest -> Upstream<T>)
    requires Resolve(t, env, sid, now, te).value.Err?
    ensures Get(t, env, sid, now, te, path, q, api) == Get(t, env, sid, now, te, path, q, api')
    ensures Get(t, env, sid, now, te, path, q, api).value == Err(Resolve(t, env, sid, now, te).value.error)
  {
  }

  /** With tokens in hand, the GET sends the resolved access token as a bearer
      credential to the API base plus the path, and succeeds exactly on a 200
      reply whose body decodes, yielding the decoded value; a non-200 reply's
      body is the error text. */
  lemma GetClassification<T>(t: Tables, env: Env, sid: string, now: int, te: TokenEndpoint,
                             path: string, q: Query, api: GetRequest -> Upstream<T>)
    requires Resolve(t, env, sid, now, te).value.Ok?
    ensures var tok := Resolve(t, env, sid, now, te).value.value;
            var req := ApiRequest(path, q, tok.accessToken);
            var reply := api(req);
            var g := Get(t, env, sid, now, te, path, q, api);
            && req.authorization == "Bearer " + tok.accessToken
            && req.url == Url(ApiBase + path, q)
            && g.tables == Resolve(t, env, sid, now, te).tables
            && (g.value.Ok? <==> reply.Response? && reply.status == StatusOK && reply.payload.Parsed?)
            && (g.value.Ok? ==> g.value.value == reply.payload.value)
            && (reply.Response? && reply.status != StatusOK ==> g.value == Err(ApiRejected(reply.body)))
  {
  }
}
