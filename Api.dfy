/**
 * The client's service layer: the `api` HTTP instance with its request and
 * response interceptors, and the `authService` / `todoService` calls.
 * The network is not modelled: each call takes the server's reply as a
 * parameter (`Resolved` with the response data, or `Rejected` with the error).
 */
module Api {
  import opened Wrappers
  import opened Browser

  /** A todo as the server returns it in JSON. */
  datatype Todo = Todo(id: string, text: string, completed: bool, createdAt: string, userId: string)

  /** The body of a create request. */
  datatype NewTodo = NewTodo(text: string, completed: bool)

  datatype Credentials = Credentials(username: string, password: string)

  /** The data of a successful login response. */
  datatype LoginReply = LoginReply(token: string)

  /** The data of a successful token check (`/debug/auth`): the username the token names. */
  datatype TokenInfo = TokenInfo(user: string)

  /** A rejected request: `error.response?.status`, absent when no response arrived. */
  datatype HttpError = HttpError(status: Option<int>)

  /** A settled promise. */
  datatype Outcome<+T> = Resolved(value: T) | Rejected(error: HttpError)

  /** A 401 or 403 response: the session is no longer accepted. */
  predicate IsAuthFailure(e: HttpError) {
    e.status == Some(401) || e.status == Some(403)
  }

  const Authorization: string := "Authorization"

  /** The default headers of the `api` instance. */
  const DefaultHeaders: map<string, string> := map["Content-Type" := "application/json"]

  /** The request interceptor's effect on the headers: `if (token)` then Authorization is `Bearer <token>`. */
  function WithBearer(headers: map<string, string>, token: Option<string>): map<string, string> {
    if token.Some? && token.value != "" then headers[Authorization := "Bearer " + token.value] else headers
  }

  /** The Authorization header is set to `Bearer <token>` exactly when a non-empty token is stored; no other header changes. */
  lemma WithBearerSpec(headers: map<string, string>, token: Option<string>)
    ensures var r := WithBearer(headers, token);
      && (token.Some? && token.value != "" ==> Authorization in r && r[Authorization] == "Bearer " + token.value)
      && (token.None? || token.value == "" ==> r == headers)
      && (forall k :: k != Authorization ==> (k in r <==> k in headers))
      && (forall k :: k in headers && k != Authorization ==> r[k] == headers[k])
  {
  }

  /** The response interceptor's effect on storage: a 401 or 403 removes only the token. */
  function AfterResponse<T>(items: map<string, string>, reply: Outcome<T>): map<string, string> {
    if reply.Rejected? && IsAuthFailure(reply.error) then items - {TokenKey} else items
  }

  /** The configuration of one outgoing request; the request interceptor edits its headers in place. */
  class RequestConfig {
    var headers: map<string, string>

    constructor (headers: map<string, string>)
      ensures this.headers == headers
    {
      this.headers := headers;
    }
  }

  /** The request interceptor: reads the stored token and sets the Authorization header on `config`. */
  method InterceptRequest(storage: LocalStorage, config: RequestConfig) returns (out: RequestConfig)
    modifies config
    ensures out == config
    ensures config.headers == WithBearer(old(config.headers), storage.GetItem(TokenKey))
  {
    var token := storage.GetItem(TokenKey);
    if token.Some? && token.value != "" {
      config.headers := config.headers[Authorization := "Bearer " + token.value];
    }
    out := config;
  }

  /** The response interceptor's error path: clear the token on 401/403 and re-reject the same error. */
  method InterceptResponseError<T>(storage: LocalStorage, e: HttpError) returns (r: Outcome<T>)
    modifies storage
    ensures r == Rejected(e)
    ensures storage.items == AfterResponse(old(storage.items), r)
  {
    if IsAuthFailure(e) {
      storage.RemoveItem(TokenKey);
    }
    r := Rejected(e);
  }

  /**
   * A call through the `api` instance: the request interceptor builds the headers
   * that are sent, the server answers `reply`, and the response interceptor hands
   * a success through untouched and re-rejects an error.
   */
  method Send<T>(storage: LocalStorage, reply: Outcome<T>) returns (sent: map<string, string>, r: Outcome<T>)
    modifies storage
    ensures sent == WithBearer(DefaultHeaders, old(storage.GetItem(TokenKey)))
    ensures r == reply
    ensures storage.items == AfterResponse(old(storage.items), reply)
  {
    var config := new RequestConfig(DefaultHeaders);
    config := InterceptRequest(storage, config);
    sent := config.headers;
    match reply
    case Resolved(_) =>
      r := reply;
    case Rejected(e) =>
      r := InterceptResponseError(storage, e);
  }

  /** `authService.login`: a plain POST (no interceptors); on success the token is stored, on failure the error is rethrown. */
  method Login(storage: LocalStorage, reply: Outcome<LoginReply>) returns (r: Outcome<LoginReply>)
    modifies storage
    ensures r == reply
    ensures reply.Resolved? ==> storage.items == old(storage.items)[TokenKey := reply.value.token]
    ensures reply.Rejected? ==> storage.items == old(storage.items)
  {
    if reply.Resolved? {
      storage.SetItem(TokenKey, reply.value.token);
    }
    r := reply;
  }

  /** `authService.logout`: removes the token and the username. */
  method Logout(storage: LocalStorage)
    modifies storage
    ensures storage.items == LoggedOut(old(storage.items))
  {
    storage.RemoveItem(TokenKey);
    storage.RemoveItem(UsernameKey);
  }
}
