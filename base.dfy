/** Values shared by every part of the server: errors and their texts, upstream
    replies, outgoing requests, handler replies and the process environment. */
module Base {

  datatype Option<T> = None | Some(value: T)

  /** The Go `error` values the core produces, one constructor per origin. */
  datatype Error =
    | NoSession                    // errors.New("no session")
    | NoRows                       // sql.ErrNoRows from QueryRow(...).Scan
    | Transport(reason: string)    // http.Client.Do failed
    | RefreshFailed(body: string)  // token endpoint answered a refresh with a non-200 status
    | ApiRejected(body: string)     // an API GET answered with a non-200 status
    | Decode(reason: string)       // a 200 body that does not decode

  /** The text `err.Error()` gives, which the handlers copy into their 502 replies. */
  function Message(e: Error): string
  {
    match e
    case NoSession => "no session"
    case NoRows => "sql: no rows in result set"
    case Transport(reason) => reason
    case RefreshFailed(body) => "refresh failed: " + body
    case ApiRejected(body) => body
    case Decode(reason) => reason
  }

  /** An `(value, error)` pair of Go results: exactly one of the two is meaningful. */
  datatype Result<T> = Ok(value: T) | Err(error: Error)

  /** Query parameters (`url.Values` with one value per key). */
  type Query = map<string, string>

  /** A URL: the address, then `?` and the encoded query when the query is non-empty. */
  datatype Url = Url(address: string, query: Query)

  /** What decoding a JSON body into the expected shape gives. */
  datatype Decoded<T> = Parsed(value: T) | Malformed(reason: string)

  /** One upstream HTTP exchange as seen by the caller: either the transport failed,
      or a status line arrived with a body, and the body decoded (or not) into T. */
  datatype Upstream<T> =
    | TransportFailure(reason: string)
    | Response(status: int, body: string, payload: Decoded<T>)

  const StatusOK := 200

  /** The prefix of every API URL. */
  const ApiBase := "https://app.asana.com/api/1.0"

  /** An outgoing authenticated GET: its URL and its `Authorization` header. */
  datatype GetRequest = GetRequest(url: Url, authorization: string)

  /** What a handler writes back: `http.Error(w, message, status)`, a 302 redirect,
      a JSON document, or an empty 204. */
  datatype Reply<T> = Fail(status: int, message: string) | Redirect(location: Url) | Json(body: T) | NoContent

  /** The process environment; an unset variable is absent from the map. */
  type Env = map<string, string>

  /** `getenv(k, def)`: the variable's value when it is set and non-empty, else `def`. */
  function Getenv(env: Env, key: string, default: string): (v: string)
    ensures v == "" ==> default == ""
    ensures v != default ==> key in env && v == env[key]
    ensures key in env && env[key] != "" ==> v == env[key]
  {
    if key in env && env[key] != "" then env[key] else default
  }
}
