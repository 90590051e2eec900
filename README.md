# Asana sign-in and token core, modelled in Dafny

This project models the server side of the Go backend's Asana integration:

- the OAuth 2.0 authorization-code login with PKCE (`/auth/asana/start` and `/auth/asana/callback`);
- the token lifecycle: resolve a session's tokens and refresh them two minutes before expiry;
- authenticated GETs against the Asana API;
- offset-cursor pagination of a project's tasks;
- the projects, project-tasks, `/me` and logout handlers;
- `extractCustom`, which reads one custom field.

The database is a class `Store.Db` with one map field per table of the schema: `sessions_meta`, `sessions`, `users` and `oauth_accounts`.

Each handler that reads or writes the store (start, callback, token resolution, the GET, the projects handler, logout) is written twice:

- as a pure transition over a `Tables` value, which gives back the reply and the new tables;
- as an imperative method that changes `Db` step by step in the source's order.

The method's postcondition ties the two together. The properties are proved as lemmas over the pure transitions. The project-tasks handler and `listAllProjectTasks` never touch the store themselves. They are single methods over the page outcomes, proved against `Pagination.Listing`. `/me` is a method that only reads the store, proved against `WhoAmI.Me`.

Inputs the core cannot see become parameters:

- the environment map, read with `getenv`'s empty-means-unset rule;
- the random bytes from `crypto/rand`;
- SHA-256, as a function from string to a 32-byte digest;
- the clock, as one `now` in seconds per request;
- the upstream endpoints. The token endpoint and single GETs are functions from the request sent to the reply received. A paged listing takes the sequence of page outcomes its successive GETs give.

Base64 (the unpadded URL-safe alphabet) is implemented, not abstracted.

The model follows the code in these places, including where a reader of the OAuth RFCs might expect otherwise:

- A refresh is due when the clock is strictly after `expires_at − 2 min` and a refresh token exists (`Asana.RefreshDue`).
- Any status other than 200 is an error, not only non-2xx ones.
- A callback whose user gid cannot be resolved does not fail. It records user `""` and binds the session to it (`OAuth.CallbackUserId`).
- The code exchange always overwrites the stored refresh token, even with an empty one (`OAuth.CallbackSuccess`). Only a refresh keeps the old refresh token when the new one is empty.
- The authorization URL's scopes default to `users:read`, so its `scope` parameter is always present. The `scope` column stores `ASANA_SCOPES` with an empty default.

## Model

| member | source | states |
|---|---|---|
| Base.Message | server/asana.go:56-144 | the text each error is reported with, as `err.Error()` gives it |
| Store.ReferentialIntegrity | server/main.go:143-157 | the schema's `REFERENCES users(id)` on `sessions.user_id` and `oauth_accounts.user_id` |
| Base.Getenv | server/main.go:71-74 | an empty or absent variable reads as the default; a set, non-empty one reads as its value |
| Store.UpsertUser | server/oAuth.go:183-186 | the user row carries the new name; a new row gets an empty avatar, an existing row keeps its own; no other row changes |
| Base64.Encode | server/oAuth.go:32-36 | n bytes encode to (4n+2)/3 characters, all from the URL-safe alphabet |
| OAuth.RandomString | server/oAuth.go:32-36 | `randomString`: the unpadded URL-safe encoding of the drawn bytes |
| OAuth.LoadOAuth | server/oAuth.go:23-30 | client id and redirect URI come from the environment; the scopes are never empty, since they default to `users:read` |
| OAuth.S256 | server/oAuth.go:58-59 | the code challenge: the unpadded URL-safe encoding of the SHA-256 digest of the verifier |
| OAuth.Pkce | server/oAuth.go:56-61 | the verifier is a valid RFC 7636 code verifier of 43 characters; the challenge is its S256 transformation, also 43 characters |
| OAuth.RandomString24 | server/oAuth.go:75-78 | a state nonce or minted session id is 32 URL-safe characters |
| OAuth.Start | server/oAuth.go:69-102 | the start transition: 500 when client id or redirect URI is unset; otherwise upsert the handshake under the cookie's session id, or a minted one, set the cookie and redirect to the authorization URL |
| OAuth.HandleAsanaStart | server/oAuth.go:69-102 | the reply, cookie and new tables are those of the start transition; referential integrity is kept |
| OAuth.AuthorizeUrl | server/oAuth.go:89-100 | the authorization endpoint with client_id, redirect_uri, response_type=code, state, code_challenge_method=S256, code_challenge, and scope when the scopes are non-empty |
| OAuth.AuthorizeUrlCarries | server/oAuth.go:89-100 | the authorization URL carries exactly client_id, redirect_uri, response_type=code, state, code_challenge_method=S256 and code_challenge, plus scope when the scopes are non-empty; with `loadOAuth`'s scopes the scope is always present |
| OAuth.StartEffects | server/oAuth.go:69-102 | unconfigured: 500 and no write. Otherwise the handshake is stored under the reused or minted session id and nothing else changes; the redirect carries the stored state and the S256 challenge of the stored verifier |
| OAuth.HandleAsanaCallback | server/oAuth.go:104-210 | the reply and new tables are those of the callback transition; referential integrity is kept |
| OAuth.CheckCallback | server/oAuth.go:109-122 | the callback's checks before any upstream call, in order: code and state present, a session cookie, a stored handshake with the same state; an accepted check releases the stored verifier |
| OAuth.CallbackUser | server/oAuth.go:164-180 | the user to record: the token reply's when it has a gid, else a 200 `/users/me` reply's (the zero user when it does not decode), else the token reply's as it is |
| OAuth.Bind | server/oAuth.go:182-202 | the callback's writes: upsert the user, upsert the account row with both tokens, the scope and now+expires_in, bind the session to the user, delete the handshake |
| OAuth.Callback | server/oAuth.go:104-210 | the callback transition: the checks, the code exchange with its four 502 outcomes, then the writes and the redirect to the post-login URL |
| OAuth.ExchangeForm | server/oAuth.go:124-130 | the code exchange form: grant_type=authorization_code, client_id, client_secret, redirect_uri, the code and the code verifier |
| OAuth.UsersMeRequest | server/oAuth.go:167-168 | the fallback request: GET `/users/me` on the API base with the exchanged access token as bearer credential |
| OAuth.PostLoginUrl | server/oAuth.go:209 | the post-login redirect: POST_LOGIN_REDIRECT, defaulting to the local profile page |
| OAuth.CallbackSendsVerifier | server/oAuth.go:118-130 | an accepted callback sends exactly the six exchange parameters, with the code and the verifier start stored for the session |
| OAuth.CallbackRejections | server/oAuth.go:109-122 | missing code/state, no session and state mismatch are 400 in that order, with no write |
| OAuth.CallbackExchangeFailures | server/oAuth.go:135-162 | transport failure, non-200 (body quoted), undecodable reply and missing access token are each a 502 with its text, and nothing is written |
| OAuth.CallbackSucceedsIff | server/oAuth.go:104-162 | the callback redirects exactly when the handshake is accepted and the exchange answers 200 with an access token; every other outcome is an error with the store unchanged |
| OAuth.CallbackSuccess | server/oAuth.go:182-209 | after success the account row holds both exchanged tokens, the configured scope and expiry now+expires_in; the session is bound to the user, the user row has the name, the handshake is deleted, other users are kept |
| OAuth.CallbackUserId | server/oAuth.go:164-180 | the recorded gid is the token reply's when non-empty, else that of a 200 `/users/me` reply, else empty |
| OAuth.CallbackSingleUse | server/oAuth.go:199-202 | replaying a successful callback is a state mismatch whatever the upstream answers |
| OAuth.StartThenCallback | server/oAuth.go:75-122 | the state start redirects with is accepted on that session and releases the verifier whose challenge the URL carried; any other non-empty state is a mismatch (an empty one is a missing state) |
| OAuth.LoginKeepsIntegrity | server/main.go:143-157 | start and callback keep the foreign keys of sessions and oauth_accounts to users |
| Pagination.IsLast | server/asana.go:50 | the loop stops at a page whose next_page is null or whose offset is empty |
| Pagination.PageQuery | server/asana.go:40 | the base query, with offset set only when it is non-empty |
| Pagination.FirstEnd | server/asana.go:46-50 | the index of the first page outcome that stops the loop, every earlier one continuing it |
| Pagination.Listing | server/asana.go:34-53 | the listing's result: the error of the outcome that stops the loop, or the items of every page up to and including the last, in order |
| Pagination.FetchAll | server/asana.go:30-54 | the loop returns the listing (the stopping page's error, or all items of the pages in order) and sends one request per page: the first with the base query, each later one with the previous page's non-empty offset |
| Pagination.FlattenLength | server/asana.go:49 | the listing holds as many items as the pages together |
| Pagination.ListingIgnoresLaterReplies | server/asana.go:50 | outcomes after the stopping page are never requested and do not affect the listing |
| Pagination.ListingOfCompletePages | server/asana.go:34-53 | pages whose cursors continue until a last one yield every page's items, in order |
| Pagination.ListingFailureDiscards | server/asana.go:46-48 | a page error after any number of good pages is the listing's result; nothing fetched is returned |
| Asana.Tokens.constructor | server/asana.go:61-66 | the record holds the values scanned from the join |
| Asana.RefreshDue | server/asana.go:71 | refresh is due when the clock is strictly past two minutes before expiry and a refresh token exists |
| Asana.JoinTokens | server/asana.go:62-66 | the join of the session to its user's asana account row, with a null expiry read as now; none when either is missing |
| Asana.RefreshAttempt | server/asana.go:87-110 | one refresh exchange: transport error, non-200 with "refresh failed: " and the body, undecodable body, or the merged tokens |
| Asana.RefreshForm | server/asana.go:81-85 | the refresh form: grant_type=refresh_token, client_id, client_secret and the stored refresh token |
| Asana.Merge | server/asana.go:106-110 | the merge: the new access token, the new refresh token only when non-empty, expiry now+expires_in |
| Asana.StoreRefresh | server/asana.go:112-116 | the refresh write: the three token columns of the user's asana row |
| Asana.Resolve | server/asana.go:56-77 | the resolution transition: no session, no rows, the stored tokens when not due, else the refresh's error or its merged tokens with the row written |
| Asana.RefreshAsanaTokens | server/asana.go:79-117 | on any exchange error the record and the store are as before; on success the record is the merged tokens and the account row is updated to match |
| Asana.TokensForRequest | server/asana.go:56-77 | the result and new store are those of the resolution transition; a success is a fresh record |
| Asana.ApiRequest | server/asana.go:123-127 | the GET request: the API base plus the path, the query, and `Bearer` with the access token |
| Asana.Classify | server/asana.go:129-143 | how a GET's reply is read: transport error, non-200 with its body as the error text, undecodable body, or the decoded value |
| Asana.Get | server/asana.go:119-144 | the GET transition: resolve the tokens, then one bearer request to the API base plus the path, classified |
| Asana.AsanaGet | server/asana.go:119-144 | the result and new store are those of the GET transition |
| Asana.TasksPath | server/asana.go:46 | `/projects/<gid>/tasks` |
| Asana.ListAllProjectTasks | server/asana.go:30-54 | the listing of the task pages; every request goes to the project's tasks path; the first carries the fixed limit, fields and completed_since, and each later one the same plus the previous page's `next_page.offset` |
| Asana.ResolveErrors | server/asana.go:56-69 | no cookie is "no session"; an unknown session or one without an asana account is "no rows"; these happen only then, and neither writes |
| Asana.ResolveDueRule | server/asana.go:71-75 | tokens not due are returned as stored, independent of the token endpoint; due tokens are refreshed with the stored refresh token, and the store changes only on a successful refresh |
| Asana.MissingExpiryIsDue | server/asana.go:63-71 | a null expires_at reads as now, so it is due exactly when a refresh token exists |
| Asana.RefreshedTokens | server/asana.go:106-110 | the new access token replaces the old one; the refresh token is replaced only by a non-empty one; expiry is now+expires_in; the record is due again at once exactly when the new lifetime is under two minutes |
| Asana.StoreRefreshRow | server/asana.go:112-116 | the refresh write sets exactly the three token columns of the user's asana row; every other row and table is kept |
| Asana.ResolveIsStable | server/asana.go:56-116 | after a successful resolution the store reads back the tokens returned; when they are not due, resolving again returns them without a write |
| Asana.ResolveKeepsIntegrity | server/asana.go:112-116 | resolution keeps the foreign keys |
| Asana.ExpiredRecordScenario | server/asana.go:71-116 | a record expired a second ago with RT1, refreshed to AT2 for 60 s without a new refresh token, resolves to AT2 with RT1 kept, and the row holds the same |
| Asana.LoginThenResolve | server/asana.go:56-77 | after a successful callback the session resolves to the exchanged tokens with no refresh until two minutes before expiry, and forever without a refresh token |
| Asana.LoginScenario | server/oAuth.go:69-210 | start for s1, a callback with the redirect's state and a token endpoint giving only AT1 for an hour: the URL uses S256, the login redirects via the `/users/me` fallback, and s1 then resolves to AT1 expiring an hour after login for the user the callback recorded, at any later time |
| Asana.GetTokenFailurePropagates | server/asana.go:120-121 | a token error is the GET's error, whatever the API would answer |
| Asana.GetClassification | server/asana.go:122-143 | the GET sends the resolved access token as a bearer credential to the API base plus the path; it succeeds exactly on a decodable 200 reply, and a non-200 body becomes the error text |
| Handlers.StringAt | server/asanaHandlers.go:103-104 | a key's string value, or "" when it is absent or not a string |
| Handlers.Qualifies | server/asanaHandlers.go:103-104 | the entry's name is the wanted one and its display_value is a non-empty string |
| Handlers.FirstQualifying | server/asanaHandlers.go:102-104 | the first custom field named as wanted with a non-empty display value, every earlier one not qualifying |
| Handlers.ExtractCustom | server/asanaHandlers.go:101-109 | found exactly when some entry qualifies; then the first qualifying entry's display value, which is non-empty; otherwise "" |
| Handlers.ChosenWorkspace | server/asanaHandlers.go:25-28 | the first workspace's gid, or "" when there is none |
| Handlers.ProjectsQuery | server/asanaHandlers.go:35-40 | the projects query: the workspace, archived=false, opt_fields=name, limit=100 |
| Handlers.Projects | server/asanaHandlers.go:17-45 | the projects transition: `/users/me` for the workspaces, 502 on its error, then `/projects` for the chosen workspace, 502 on its error, else the projects |
| Handlers.HandleAsanaProjects | server/asanaHandlers.go:17-45 | the reply and new store are those of the projects transition (two GETs, each resolving tokens) |
| Handlers.ProjectsMeFailure | server/asanaHandlers.go:22-24 | a failing `/users/me` call is a 502 with its error text, and the projects endpoint is never asked |
| Handlers.ProjectsWorkspaceChoice | server/asanaHandlers.go:25-44 | the projects request names the first workspace, or "" with none, with archived=false; the reply is the projects exactly when that request succeeds, else a 502 with its error |
| Handlers.ProjectsReplies | server/asanaHandlers.go:17-45 | the handler answers with the list or a 502 |
| Handlers.Join | server/asanaHandlers.go:78 | `strings.Join`: the items with the separator between consecutive ones |
| Handlers.ProjectTasksQuery | server/asanaHandlers.go:76-79 | the tasks query: limit=50 and the field list joined with commas |
| Handlers.HandleAsanaProjectTasks | server/asanaHandlers.go:48-94 | an empty gid is 400 with no request; otherwise a 502 with the listing's error or all task objects in page order, with one request per page on the project's tasks path, the rich field list and the previous page's offset |
| WhoAmI.Me | server/whoAmI.go:13-38 | `/me`: 401 without a cookie or without a session row joined to a user row, else that user's id and name |
| WhoAmI.HandleMe | server/whoAmI.go:13-38 | a reply with a body exactly when the cookie's session is bound to an existing user, and then exactly that user's id and stored name; otherwise 401 "unauthorized" |
| WhoAmI.Logout | server/whoAmI.go:45-59 | logout's write: the session row is deleted only when a cookie was sent |
| WhoAmI.HandleLogout | server/whoAmI.go:45-59 | always 204; with a cookie the session is deleted and the cookie cleared, without one nothing changes |
| WhoAmI.MeAuthorizedIff | server/whoAmI.go:17-37 | `/me` answers exactly for a session bound to an existing user, with that user's id and stored name; otherwise 401 |
| WhoAmI.CallbackThenMe | server/oAuth.go:183-200 | after a successful callback `/me` reports the recorded user and name |
| WhoAmI.LogoutEndsSession | server/whoAmI.go:46-48 | after logout `/me` is 401 and token resolution fails without asking the token endpoint; other sessions, users, accounts and handshakes are untouched; logout is idempotent |
| WhoAmI.ApiSessionAnswersMe | server/whoAmI.go:22-37 | under the schema's foreign keys, a session whose asana tokens resolve also answers `/me`, with the tokens' user |
| WhoAmI.LogoutKeepsIntegrity | server/whoAmI.go:48 | logout keeps the foreign keys |

## Left out

- The background `recomputePointsForUser` goroutine started after login: it belongs to the points subsystem, not the login core.
- Concurrency: handlers run one at a time. The lost-update race between two concurrent refreshes of one account is not represented.
- Cookies: the session cookie's value is a parameter; its attributes (HttpOnly, SameSite, the expiring cookie on logout) are reduced to a cookie value or a clear flag.
- JSON: bodies arrive decoded or as a decode error. The partial decode of a malformed 200 `/users/me` reply in the callback is modelled as the zero user. The `null` that an empty listing encodes to is not distinguished from an empty array.
- SQL: every `Exec` is taken to succeed. A failed refresh write, which the source reports after already changing the in-memory record, is not modelled. The `create table if not exists` at server/oAuth.go:83 is not modelled.
- A NULL `refresh_token` column, on which the join's scan would fail, is not represented: refresh tokens are strings.
- URL encoding: a URL is its address plus a query map. The `?` added only for a non-empty query, escaping and key order are not modelled.
- The clock: the database's `now()`, the due check and the new expiry read one `now` per request. Timestamps are whole seconds. `time.Duration` overflow for huge `expires_in` is not modelled.
- Pagination.FetchAll: the loop runs forever when no page ever stops it. The model requires the page outcomes to settle.
- Asana.ListAllProjectTasks: each page's token resolution, which may refresh and write the store, is modelled in Asana.AsanaGet. The listing takes the per-page outcomes as given.
- Handlers.HandleAsanaProjectTasks: the same reduction of page outcomes to inputs applies.
- Randomness and hashing: `crypto/rand` bytes and SHA-256 are parameters; a failed `rand.Read` is not modelled.
- Logging: `handleMe` prints the session id and any join error to standard output (server/whoAmI.go:14-29); output is not modelled.
- The HTTP routing, CORS and server start-up in main.go are out of scope.
