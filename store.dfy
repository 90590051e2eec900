/** The four tables of the credential store, keyed as the schema declares them:
    `users(id)`, `oauth_accounts(user_id, provider)`, `sessions(id)` and
    `sessions_meta(id)`. Rows hold the columns the core reads or writes. */
module Store {
  import opened Base

  /** The one provider the core talks to; the second half of every account key. */
  const Asana := "asana"

  /** A `sessions_meta` row: the in-flight PKCE handshake of one session. */
  datatype Handshake = Handshake(state: string, codeVerifier: string)

  /** A `users` row. */
  datatype UserRow = UserRow(name: string, avatarUrl: string)

  /** An `oauth_accounts` row; `expires_at` is a nullable timestamp (seconds). */
  datatype AccountRow = AccountRow(accessToken: string, refreshToken: string, scope: string, expiresAt: Option<int>)

  /** The primary key of `oauth_accounts`: (user_id, provider). */
  type AccountKey = (string, string)

  /** The whole store as a value. */
  datatype Tables = Tables(
    sessionsMeta: map<string, Handshake>,
    sessions: map<string, string>,
    users: map<string, UserRow>,
    oauthAccounts: map<AccountKey, AccountRow>)

  /** What a store transition gives back: its result and the tables afterwards. */
  datatype Step<T> = Step(value: T, tables: Tables)

  /** The schema's `REFERENCES users(id)` constraints on `sessions.user_id` and
      `oauth_accounts.user_id`. */
  predicate ReferentialIntegrity(t: Tables)
  {
    && (forall sid :: sid in t.sessions ==> t.sessions[sid] in t.users)
    && (forall k :: k in t.oauthAccounts ==> k.0 in t.users)
  }

  /** `insert into users(id, name, avatar_url) values(id, name, '')
      on conflict (id) do update set name=excluded.name`: a new row gets an empty
      avatar, an existing row keeps its avatar. */
  function UpsertUser(users: map<string, UserRow>, id: string, name: string): (u: map<string, UserRow>)
    ensures u.Keys == users.Keys + {id}
    ensures u[id].name == name
    ensures u[id].avatarUrl == if id in users then users[id].avatarUrl else ""
    ensures forall k :: k in users && k != id ==> u[k] == users[k]
  {
    users[id := if id in users then users[id].(name := name) else UserRow(name, "")]
  }

  /** The database the handlers share; each field is one table. */
  class Db {
    var sessionsMeta: map<string, Handshake>
    var sessions: map<string, string>
    var users: map<string, UserRow>
    var oauthAccounts: map<AccountKey, AccountRow>

    function Snapshot(): Tables
      reads this
    {
      Tables(sessionsMeta, sessions, users, oauthAccounts)
    }

    ghost predicate Valid()
      reads this
    {
      ReferentialIntegrity(Snapshot())
    }

    constructor ()
      ensures Valid()
      ensures Snapshot() == Tables(map[], map[], map[], map[])
    {
      sessionsMeta, sessions, users, oauthAccounts := map[], map[], map[], map[];
    }
  }
}
