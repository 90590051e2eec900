/** The login handshake: the authorization-code grant with PKCE (method S256,
    sections 4.1-4.2 of RFC 7636; token request as in section 4.1.3 of RFC 6749).
    `/auth/asana/start` stores a state nonce and a code verifier under the
    session id and redirects to the authorization endpoint; `/auth/asana/callback`
    checks the returned state, exchanges the code, records the user, the
    account's tokens and the session binding, and consumes the handshake. */
module OAuth {
  import opened Base
  import opened Store
  import Base64

  /** The OAuth client settings read from the environment by `loadOAuth`. */
  datatype Config = Config(clientId: string, clientSecret: string, redirectUri: string, scopes: string)

  function LoadOAuth(env: Env): (cfg: Config)
    ensures cfg.scopes != ""
    ensures cfg.clientId == Getenv(env, "ASANA_CLIENT_ID", "")
    ensures cfg.redirectUri == Getenv(env, "ASANA_REDIRECT_URI", "")
  {
    Config(
      Getenv(env, "ASANA_CLIENT_ID", ""),
      Getenv(env, "ASANA_CLIENT_SECRET", ""),
      Getenv(env, "ASANA_REDIRECT_URI", ""),
      Getenv(env, "ASANA_SCOPES", "users:read"))
  }

  // ---------------------------------------------------------------------------
  // Randomness and PKCE
  // ---------------------------------------------------------------------------

  /** The bytes `crypto/rand` fills in for `randomString(24)` and `randomString(32)`. */
  type Draw24 = b: seq<Base64.byte> | |b| == 24 witness seq(24, _ => 0)
  type Draw32 = b: seq<Base64.byte> | |b| == 32 witness seq(32, _ => 0)

  /** A SHA-256 digest, and the hash function as a parameter of the model. */
  type Digest = d: seq<Base64.byte> | |d| == 32 witness seq(32, _ => 0)
  type Sha256 = string -> Digest

  /** `randomString(n)`: the encoding of n random bytes. */
  function RandomString(draw: seq<Base64.byte>): string
  {
    Base64.Encode(draw)
  }

  /** The unreserved characters of section 2.3 of RFC 3986. */
  predicate Unreserved(c: char)
  {
    ('A' <= c <= 'Z') || ('a' <= c <= 'z') || ('0' <= c <= '9') || c == '-' || c == '.' || c == '_' || c == '~'
  }

  /** A code verifier as section 4.1 of RFC 7636 defines it: 43 to 128 unreserved characters. */
  predicate IsCodeVerifier(s: string)
  {
    43 <= |s| <= 128 && forall i :: 0 <= i < |s| ==> Unreserved(s[i])
  }

  /** The S256 transformation of section 4.2 of RFC 7636: BASE64URL(SHA256(verifier)). */
  function S256(verifier: string, sha: Sha256): string
  {
    Base64.Encode(sha(verifier))
  }

  datatype PkcePair = PkcePair(verifier: string, challenge: string)

  /** `pkce()`: a verifier from 32 random bytes and its S256 challenge. */
  function Pkce(draw: Draw32, sha: Sha256): (p: PkcePair)
    ensures IsCodeVerifier(p.verifier) && |p.verifier| == 43
    ensures p.challenge == S256(p.verifier, sha) && |p.challenge| == 43
  {
    var ver := RandomString(draw);
    PkcePair(ver, Base64.Encode(sha(ver)))
  }

  /** A state nonce or a minted session id drawn from 24 bytes is 32 URL-safe characters. */
  lemma RandomString24(draw: Draw24)
    ensures |RandomString(draw)| == 32
    ensures forall i :: 0 <= i < 32 ==> Base64.UrlSafe(RandomString(draw)[i])
  {
  }

  // ---------------------------------------------------------------------------
  // /auth/asana/start
  // ---------------------------------------------------------------------------

  const AuthorizeEndpoint := "https://app.asana.com/-/oauth_authorize"

  /** The authorization request of section 4.1.1 of RFC 6749 with the PKCE
      parameters of section 4.3 of RFC 7636. */
  function AuthorizeUrl(cfg: Config, state: string, challenge: string): Url
  {
    Url(AuthorizeEndpoint,
        map["client_id" := cfg.clientId,
            "redirect_uri" := cfg.redirectUri,
            "response_type" := "code",
            "state" := state,
            "code_challenge_method" := "S256",
            "code_challenge" := challenge]
        + (if cfg.scopes != "" then map["scope" := cfg.scopes] else map[]))
  }

  /** What the start handler gives back: its reply, the session cookie it sets,
      and the tables afterwards. */
  datatype Login = Login(reply: Reply<()>, cookie: Option<string>, tables: Tables)

  /** The start handler as a store transition. */
  function Start(t: Tables, env: Env, sid: string, stateDraw: Draw24, verifierDraw: Draw32, sessionDraw: Draw24, sha: Sha256): Login
  {
    var cfg := LoadOAuth(env);
    if cfg.clientId == "" || cfg.redirectUri == "" then
      Login(Fail(500, "oauth not configured"), None, t)
    else
      var state := RandomString(stateDraw);
      var p := Pkce(verifierDraw, sha);
      var id := if sid == "" then RandomString(sessionDraw) else sid;
      Login(Redirect(AuthorizeUrl(cfg, state, p.challenge)), Some(id),
            t.(sessionsMeta := t.sessionsMeta[id := Handshake(state, p.verifier)]))
  }

  method HandleAsanaStart(db: Db, env: Env, sid: string, stateDraw: Draw24, verifierDraw: Draw32, sessionDraw: Draw24, sha: Sha256)
    returns (reply: Reply<()>, cookie: Option<string>)
    requires db.Valid()
    modifies db
    ensures db.Valid()
    ensures Login(reply, cookie, db.Snapshot()) == Start(old(db.Snapshot()), env, sid, stateDraw, verifierDraw, sessionDraw, sha)
  {
    var cfg := LoadOAuth(env);
    if cfg.clientId == "" || cfg.redirectUri == "" {
      return Fail(500, "oauth not configured"), None;
    }
    var state := RandomString(stateDraw);
    var p := Pkce(verifierDraw, sha);
    var id := sid;
    if id == "" {
      id := RandomString(sessionDraw);
    }
    db.sessionsMeta := db.sessionsMeta[id := Handshake(state, p.verifier)];
    cookie := Some(id);
    reply := Redirect(AuthorizeUrl(cfg, state, p.challenge));
  }

  /** The authorization URL carries exactly the client id, redirect URI,
      `response_type=code`, the state, `code_challenge_method=S256` and the
      challenge, plus `scope` when the scopes are non-empty. Since `loadOAuth`
      defaults the scopes to `users:read`, the scope is always sent. */
  lemma AuthorizeUrlCarries(cfg: Config, state: string, challenge: string)
    ensures var u := AuthorizeUrl(cfg, state, challenge);
            && u.address == AuthorizeEndpoint
            && u.query["client_id"] == cfg.clientId
            && u.query["redirect_uri"] == cfg.redirectUri
            && u.query["response_type"] == "code"
            && u.query["state"] == state
            && u.query["code_challenge_method"] == "S256"
            && u.query["code_challenge"] == challenge
            && ("scope" in u.query <==> cfg.scopes != "")
            && (cfg.scopes != "" ==> u.query["scope"] == cfg.scopes)
            && u.query.Keys == {"client_id", "redirect_uri", "response_type", "state", "code_challenge_method", "code_challenge"}
                               + (if cfg.scopes != "" then {"scope"} else {})
    ensures forall env: Env :: "scope" in AuthorizeUrl(LoadOAuth(env), state, challenge).query
  {
  }

  /** Start either fails with 500 and writes nothing, or stores a fresh handshake
      under the (reused or minted) session id, overwriting any earlier one and
      nothing else, and redirects to the authorization URL built from the stored
      state and the S256 challenge of the stored verifier. */
  lemma StartEffects(t: Tables, env: Env, sid: string, stateDraw: Draw24, verifierDraw: Draw32, sessionDraw: Draw24, sha: Sha256)
    ensures var cfg := LoadOAuth(env);
            var r := Start(t, env, sid, stateDraw, verifierDraw, sessionDraw, sha);
            if cfg.clientId == "" || cfg.redirectUri == "" then
              r.reply == Fail(500, "oauth not configured") && r.cookie == None && r.tables == t
            else
              && r.cookie.Some?
              && (sid != "" ==> r.cookie.value == sid)
              && (sid == "" ==> |r.cookie.value| == 32)
              && var id := r.cookie.value;
              && r.tables.sessions == t.sessions
              && r.tables.users == t.users
              && r.tables.oauthAccounts == t.oauthAccounts
              && r.tables.sessionsMeta.Keys == t.sessionsMeta.Keys + {id}
              && (forall k :: k in t.sessionsMeta && k != id ==> r.tables.sessionsMeta[k] == t.sessionsMeta[k])
              && var hs := r.tables.sessionsMeta[id];
              && |hs.state| == 32
              && IsCodeVerifier(hs.codeVerifier)
              && r.reply == Redirect(AuthorizeUrl(cfg, hs.state, S256(hs.codeVerifier, sha)))
  {
  }

  // ---------------------------------------------------------------------------
  // /auth/asana/callback
  // ---------------------------------------------------------------------------

  /** A form-encoded POST body. */
  type Form = map<string, string>

  /** The asana user object (`data` of the token reply and of `/users/me`). */
  datatype UserInfo = UserInfo(gid: string, name: string, email: string)

  /** The decoded token reply of section 5.1 of RFC 6749, with asana's `data` user. */
  datatype TokenPayload = TokenPayload(accessToken: string, expiresIn: int, tokenType: string, refreshToken: string, data: UserInfo)

  /** The token endpoint's answer to a form (shared by the code exchange and the refresh). */
  type TokenEndpoint = Form -> Upstream<TokenPayload>

  /** The answer of `GET /users/me`, decoded to its `data` user. */
  type UsersMe = GetRequest -> Upstream<UserInfo>

  /** The access token request of section 4.1.3 of RFC 6749, with the
      `code_verifier` of section 4.5 of RFC 7636. */
  function ExchangeForm(cfg: Config, code: string, verifier: string): Form
  {
    map["grant_type" := "authorization_code",
        "client_id" := cfg.clientId,
        "client_secret" := cfg.clientSecret,
        "redirect_uri" := cfg.redirectUri,
        "code" := code,
        "code_verifier" := verifier]
  }

  /** The outcome of validating a callback before any upstream call. */
  datatype Check = Accepted(verifier: string) | Rejected(reply: Reply<()>)

  function CheckCallback(t: Tables, sid: string, code: string, state: string): Check
  {
    if code == "" || state == "" then Rejected(Fail(400, "missing code/state"))
    else if sid == "" then Rejected(Fail(400, "no session"))
    else if sid !in t.sessionsMeta || t.sessionsMeta[sid].state != state then Rejected(Fail(400, "state mismatch"))
    else Accepted(t.sessionsMeta[sid].codeVerifier)
  }

  /** The request the callback makes when the token reply names no user. */
  function UsersMeRequest(accessToken: string): GetRequest
  {
    GetRequest(Url(ApiBase + "/users/me", map[]), "Bearer " + accessToken)
  }

  /** The user the callback records: the token reply's user when it has a gid,
      else the `/users/me` user when that call answers 200 (a body that does not
      decode leaves the zero user), else the token reply's user as it is. */
  function CallbackUser(tok: TokenPayload, me: UsersMe): UserInfo
  {
    if tok.data.gid != "" then tok.data
    else match me(UsersMeRequest(tok.accessToken))
      case Response(200, _, Parsed(u)) => u
      case Response(200, _, Malformed(_)) => UserInfo("", "", "")
      case _ => tok.data
  }

  /** The writes of a successful callback, in the source's order: upsert the user,
      upsert the account, bind the session, delete the handshake. */
  function Bind(t: Tables, sid: string, user: UserInfo, tok: TokenPayload, scope: string, now: int): Tables
  {
    Tables(
      t.sessionsMeta - {sid},
      t.sessions[sid := user.gid],
      UpsertUser(t.users, user.gid, user.name),
      t.oauthAccounts[(user.gid, Asana) := AccountRow(tok.accessToken, tok.refreshToken, scope, Some(now + tok.expiresIn))])
  }

  function PostLoginUrl(env: Env): Url
  {
    Url(Getenv(env, "POST_LOGIN_REDIRECT", "http://localhost:5173/profile"), map[])
  }

  /** The callback handler as a store transition. */
  function Callback(t: Tables, env: Env, sid: string, code: string, state: string, now: int, te: TokenEndpoint, me: UsersMe): Step<Reply<()>>
  {
    match CheckCallback(t, sid, code, state)
    case Rejected(reply) => Step(reply, t)
    case Accepted(verifier) =>
      match te(ExchangeForm(LoadOAuth(env), code, verifier))
      case TransportFailure(reason) => Step(Fail(502, reason), t)
      case Response(status, body, payload) =>
        if status != StatusOK then Step(Fail(502, "bad token response: " + body), t)
        else
          match payload
          case Malformed(_) => Step(Fail(502, "bad token response"), t)
          case Parsed(tok) =>
            if tok.accessToken == "" then Step(Fail(502, "no access token"), t)
            else Step(Redirect(PostLoginUrl(env)), Bind(t, sid, CallbackUser(tok, me), tok, Getenv(env, "ASANA_SCOPES", ""), now))
  }

  method HandleAsanaCallback(db: Db, env: Env, sid: string, code: string, state: string, now: int, te: TokenEndpoint, me: UsersMe)
    returns (reply: Reply<()>)
    requires db.Valid()
    modifies db
    ensures db.Valid()
    ensures Step(reply, db.Snapshot()) == Callback(old(db.Snapshot()), env, sid, code, state, now, te, me)
  {
    var cfg := LoadOAuth(env);
    if code == "" || state == "" {
      return Fail(400, "missing code/state");
    }
    if sid == "" {
      return Fail(400, "no session");
    }
    if sid !in db.sessionsMeta || db.sessionsMeta[sid].state != state {
      return Fail(400, "state mismatch");
    }
    var verifier := db.sessionsMeta[sid].codeVerifier;

    var res := te(ExchangeForm(cfg, code, verifier));
    if res.TransportFailure? {
      return Fail(502, res.reason);
    }
    if res.status != StatusOK {
      return Fail(502, "bad token response: " + res.body);
    }
    if res.payload.Malformed? {
      return Fail(502, "bad token response");
    }
    var tok := res.payload.value;
    if tok.accessToken == "" {
      return Fail(502, "no access token");
    }

    var user := tok.data;
    if user.gid == "" {
      var res2 := me(UsersMeRequest(tok.accessToken));
      if res2.Response? && res2.status == 200 {
        user := if res2.payload.Parsed? then res2.payload.value else UserInfo("", "", "");
      }
    }

    db.users := UpsertUser(db.users, user.gid, user.name);
    var expiresAt := now + tok.expiresIn;
    db.oauthAccounts := db.oauthAccounts[(user.gid, Asana) :=
      AccountRow(tok.accessToken, tok.refreshToken, Getenv(env, "ASANA_SCOPES", ""), Some(expiresAt))];
    db.sessions := db.sessions[sid := user.gid];
    db.sessionsMeta := db.sessionsMeta - {sid};
    reply := Redirect(PostLoginUrl(env));
  }

  /** The rejections come in the source's order, before the token endpoint is
      asked, and leave the store as it was. */
  lemma CallbackRejections(t: Tables, env: Env, sid: string, code: string, state: string, now: int, te: TokenEndpoint, me: UsersMe)
    ensures code == "" || state == "" ==>
      Callback(t, env, sid, code, state, now, te, me) == Step(Fail(400, "missing code/state"), t)
    ensures code != "" && state != "" && sid == "" ==>
      Callback(t, env, sid, code, state, now, te, me) == Step(Fail(400, "no session"), t)
    ensures code != "" && state != "" && sid != "" && (sid !in t.sessionsMeta || t.sessionsMeta[sid].state != state) ==>
      Callback(t, env, sid, code, state, now, te, me) == Step(Fail(400, "state mismatch"), t)
  {
  }

  /** Once the handshake is accepted, a failed code exchange replies 502 and
      writes nothing: transport failure (its text), non-200 (with the body),
      undecodable reply, or a reply without an access token. */
  lemma CallbackExchangeFailures(t: Tables, env: Env, sid: string, code: string, state: string, now: int, te: TokenEndpoint, me: UsersMe)
    requires CheckCallback(t, sid, code, state).Accepted?
    ensures var reply := te(ExchangeForm(LoadOAuth(env), code, t.sessionsMeta[sid].codeVerifier));
            var r := Callback(t, env, sid, code, state, now, te, me);
            && (reply.TransportFailure? ==> r == Step(Fail(502, reply.reason), t))
            && (reply.Response? && reply.status != StatusOK ==> r == Step(Fail(502, "bad token response: " + reply.body), t))
            && (reply.Response? && reply.status == StatusOK && reply.payload.Malformed? ==> r == Step(Fail(502, "bad token response"), t))
            && (reply.Response? && reply.status == StatusOK && reply.payload.Parsed? && reply.payload.value.accessToken == "" ==>
                  r == Step(Fail(502, "no access token"), t))
  {
  }

  /** The callback succeeds exactly when the handshake is accepted and the
      exchange answers 200 with an access token; every other outcome is an error
      reply that leaves the store untouched. */
  lemma CallbackSucceedsIff(t: Tables, env: Env, sid: string, code: string, state: string, now: int, te: TokenEndpoint, me: UsersMe)
    ensures var r := Callback(t, env, sid, code, state, now, te, me);
            && (r.value.Redirect? <==>
                 && CheckCallback(t, sid, code, state).Accepted?
                 && var reply := te(ExchangeForm(LoadOAuth(env), code, t.sessionsMeta[sid].codeVerifier));
                 && reply.Response? && reply.status == StatusOK && reply.payload.Parsed?
                 && reply.payload.value.accessToken != "")
            && (!r.value.Redirect? ==> r.value.Fail? && r.tables == t)
  {
  }

  /** After a successful callback the account row holds both tokens of the
      exchange (the refresh token even when empty) and an expiry `expires_in`
      seconds after now, the session is bound to the user, the user row carries
      the user's name, the handshake is gone, and no other key changes. */
  lemma CallbackSuccess(t: Tables, env: Env, sid: string, code: string, state: string, now: int, te: TokenEndpoint, me: UsersMe)
    requires Callback(t, env, sid, code, state, now, te, me).value.Redirect?
    ensures var tok := te(ExchangeForm(LoadOAuth(env), code, t.sessionsMeta[sid].codeVerifier)).payload.value;
            var uid := CallbackUser(tok, me).gid;
            var t' := Callback(t, env, sid, code, state, now, te, me).tables;
            && Callback(t, env, sid, code, state, now, te, me).value == Redirect(PostLoginUrl(env))
            && t'.oauthAccounts == t.oauthAccounts[(uid, Asana) :=
                 AccountRow(tok.accessToken, tok.refreshToken, Getenv(env, "ASANA_SCOPES", ""), Some(now + tok.expiresIn))]
            && t'.sessions == t.sessions[sid := uid]
            && t'.sessionsMeta == t.sessionsMeta - {sid}
            && uid in t'.users && t'.users[uid].name == CallbackUser(tok, me).name
            && (forall k :: k in t.users && k != uid ==> k in t'.users && t'.users[k] == t.users[k])
  {
  }

  /** The recorded user id is the token reply's gid when non-empty, else the
      gid of a 200 `/users/me` reply, else empty: an unresolved gid is not an error. */
  lemma CallbackUserId(tok: TokenPayload, me: UsersMe)
    ensures tok.data.gid != "" ==> CallbackUser(tok, me) == tok.data
    ensures tok.data.gid == "" ==>
      var reply := me(UsersMeRequest(tok.accessToken));
      CallbackUser(tok, me).gid ==
        if reply.Response? && reply.status == 200 && reply.payload.Parsed? then reply.payload.value.gid else ""
  {
  }

  /** The handshake is single-use: replaying a successful callback, with the
      same state and whatever the upstream now answers, is a state mismatch. */
  lemma CallbackSingleUse(t: Tables, env: Env, sid: string, code: string, state: string, now: int, now': int,
                          te: TokenEndpoint, te': TokenEndpoint, me: UsersMe, me': UsersMe)
    requires Callback(t, env, sid, code, state, now, te, me).value.Redirect?
    ensures var t' := Callback(t, env, sid, code, state, now, te, me).tables;
            Callback(t', env, sid, code, state, now', te', me') == Step(Fail(400, "state mismatch"), t')
  {
  }

  /** Start followed by a callback on the session it set: the state it redirected
      with is accepted and releases the verifier whose S256 challenge the
      authorization URL carried; any other non-empty state is a state mismatch
      (an empty one is rejected earlier, as a missing state). */
  lemma StartThenCallback(t: Tables, env: Env, sid: string, stateDraw: Draw24, verifierDraw: Draw32, sessionDraw: Draw24,
                          sha: Sha256, code: string, state': string)
    requires LoadOAuth(env).clientId != "" && LoadOAuth(env).redirectUri != ""
    requires code != ""
    ensures var l := Start(t, env, sid, stateDraw, verifierDraw, sessionDraw, sha);
            && l.cookie.Some? && l.reply.Redirect?
            && var q := l.reply.location.query;
            && "state" in q && "code_challenge" in q
            && var c := CheckCallback(l.tables, l.cookie.value, code, q["state"]);
            && c.Accepted?
            && S256(c.verifier, sha) == q["code_challenge"]
            && IsCodeVerifier(c.verifier)
            && (state' != q["state"] && state' != "" ==>
                  CheckCallback(l.tables, l.cookie.value, code, state') == Rejected(Fail(400, "state mismatch")))
  {
    StartEffects(t, env, sid, stateDraw, verifierDraw, sessionDraw, sha);
    var l := Start(t, env, sid, stateDraw, verifierDraw, sessionDraw, sha);
    var hs := l.tables.sessionsMeta[l.cookie.value];
    AuthorizeUrlCarries(LoadOAuth(env), hs.state, S256(hs.codeVerifier, sha));
  }

  /** An accepted callback exchanges the code with exactly the parameters of
      section 4.1.3 of RFC 6749 plus the `code_verifier` of section 4.5 of
      RFC 7636, and that verifier is the one start stored for the session: the
      end of the PKCE chain that `StartThenCallback` begins. */
  lemma CallbackSendsVerifier(t: Tables, env: Env, sid: string, code: string, state: string)
    requires CheckCallback(t, sid, code, state).Accepted?
    ensures var cfg := LoadOAuth(env);
            var f := ExchangeForm(cfg, code, CheckCallback(t, sid, code, state).verifier);
            && f.Keys == {"grant_type", "client_id", "client_secret", "redirect_uri", "code", "code_verifier"}
            && f["grant_type"] == "authorization_code"
            && f["client_id"] == cfg.clientId
            && f["client_secret"] == cfg.clientSecret
            && f["redirect_uri"] == cfg.redirectUri
            && f["code"] == code && code != ""
            && f["code_verifier"] == t.sessionsMeta[sid].codeVerifier
  {
  }

  /** Start and the callback keep the schema's foreign keys. */
  lemma LoginKeepsIntegrity(t: Tables, env: Env, sid: string, stateDraw: Draw24, verifierDraw: Draw32, sessionDraw: Draw24,
                            sha: Sha256, code: string, state: string, now: int, te: TokenEndpoint, me: UsersMe)
    requires ReferentialIntegrity(t)
    ensures ReferentialIntegrity(Start(t, env, sid, stateDraw, verifierDraw, sessionDraw, sha).tables)
    ensures ReferentialIntegrity(Callback(t, env, sid, code, state, now, te, me).tables)
  {
  }
}
