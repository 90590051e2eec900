/** `/me` answers with the user bound to the session cookie; `/auth/logout`
    removes the session's binding. */
module WhoAmI {
  import opened Base
  import opened Store
  import opened OAuth
  import opened Asana

  /** The `{user_id, name}` body of `/me`. */
  datatype Whoami = Whoami(userId: string, name: string)

  /** The join `sessions s join users u on u.id = s.user_id where s.id = sid`;
      no cookie or no matching row is 401. */
  function Me(t: Tables, sid: string): Reply<Whoami>
  {
    if sid == "" then Fail(401, "unauthorized")
    else if sid in t.sessions && t.sessions[sid] in t.users then
      Json(Whoami(t.sessions[sid], t.users[t.sessions[sid]].name))
    else Fail(401, "unauthorized")
  }

  method HandleMe(db: Db, sid: string) returns (reply: Reply<Whoami>)
    ensures reply == Me(db.Snapshot(), sid)
    ensures reply.Json? <==> sid != "" && sid in db.sessions && db.sessions[sid] in db.users
    ensures reply.Json? ==> reply.body == Whoami(db.sessions[sid], db.users[db.sessions[sid]].name)
    ensures !reply.Json? ==> reply == Fail(401, "unauthorized")
  {
    if sid == "" {
      return Fail(401, "unauthorized");
    }
    if sid in db.sessions && db.sessions[sid] in db.users {
      var uid := db.sessions[sid];
      return Json(Whoami(uid, db.users[uid].name));
    }
    return Fail(401, "unauthorized");
  }

  /** `delete from sessions where id = sid`, done only when a cookie was sent. */
  function Logout(t: Tables, sid: string): Tables
  {
    if sid != "" then t.(sessions := t.sessions - {sid}) else t
  }

  /** The logout handler: always 204; the cookie is cleared when one was sent. */
  method HandleLogout(db: Db, sid: string) returns (reply: Reply<()>, clearCookie: bool)
    requires db.Valid()
    modifies db
    ensures db.Valid()
    ensures reply == NoContent
    ensures clearCookie <==> sid != ""
    ensures db.Snapshot() == Logout(old(db.Snapshot()), sid)
  {
    clearCookie := false;
    if sid != "" {
      db.sessions := db.sessions - {sid};
      clearCookie := true;
    }
    reply := NoContent;
  }

  /** `/me` is authorized exactly for a session bound to an existing user, and
      then reports that user's id and stored name. */
  lemma MeAuthorizedIff(t: Tables, sid: string)
    ensures Me(t, sid).Json? <==> sid != "" && sid in t.sessions && t.sessions[sid] in t.users
    ensures !Me(t, sid).Json? ==> Me(t, sid) == Fail(401, "unauthorized")
    ensures Me(t, sid).Json? ==> Me(t, sid).body == Whoami(t.sessions[sid], t.users[t.sessions[sid]].name)
  {
  }

  /** After a successful callback, `/me` on that session reports the recorded
      user and the name the login wrote. */
  lemma CallbackThenMe(t: Tables, env: Env, sid: string, code: string, state: string, now: int, te: TokenEndpoint, me: UsersMe)
    requires Callback(t, env, sid, code, state, now, te, me).value.Redirect?
    ensures var tok := te(ExchangeForm(LoadOAuth(env), code, t.sessionsMeta[sid].codeVerifier)).payload.value;
            var u := CallbackUser(tok, me);
            Me(Callback(t, env, sid, code, state, now, te, me).tables, sid) == Json(Whoami(u.gid, u.name))
  {
    CallbackSuccess(t, env, sid, code, state, now, te, me);
  }

  /** Logging out ends the session: `/me` is 401 and token resolution finds no
      row (or no session, without a cookie), and the token endpoint is not asked.
      Other sessions, the users and the accounts are untouched, and logging out
      twice is the same as once. */
  lemma LogoutEndsSession(t: Tables, env: Env, sid: string, other: string, now: int, te: TokenEndpoint)
    ensures var t' := Logout(t, sid);
            && Me(t', sid) == Fail(401, "unauthorized")
            && Resolve(t', env, sid, now, te) == Step(Err(if sid == "" then NoSession else NoRows), t')
            && t'.users == t.users && t'.oauthAccounts == t.oauthAccounts && t'.sessionsMeta == t.sessionsMeta
            && (other != sid ==> Me(t', other) == Me(t, other) && JoinTokens(t', other, now) == JoinTokens(t, other, now))
            && Logout(t', sid) == t'
  {
  }

  /** Under the schema's foreign keys, any session whose tokens resolve also
      answers `/me`, with the user the tokens belong to. */
  lemma ApiSessionAnswersMe(t: Tables, sid: string, now: int)
    requires ReferentialIntegrity(t)
    requires sid != "" && JoinTokens(t, sid, now).Some?
    ensures Me(t, sid).Json?
    ensures Me(t, sid).body.userId == JoinTokens(t, sid, now).value.userId
  {
  }

  /** Logout keeps the schema's foreign keys. */
  lemma LogoutKeepsIntegrity(t: Tables, sid: string)
    requires ReferentialIntegrity(t)
    ensures ReferentialIntegrity(Logout(t, sid))
  {
  }
}
