/**
 * The REST backend: two collections (users and todos), the bearer-token
 * middleware, and the route handlers for registration, login, the todo CRUD
 * routes and the token-debugging route.
 *
 * The document store is modelled as two in-memory tables held by a `Server`
 * object; the JWT library is an oracle (`Jwt`) that signs claims into a token
 * and decodes a token back into claims.  Time is a parameter (`now`, in
 * seconds since the epoch).
 */
module Backend {
  import opened Wrappers
  import JsString
  import Seqs

  /** A document id (a MongoDB ObjectId), drawn from one counter for both collections. */
  type Id = nat

  /** A document of the users collection: username unique and required, password required (stored as given). */
  datatype User = User(id: Id, username: string, password: string)

  /** A document of the todos collection. */
  datatype Todo = Todo(id: Id, text: string, completed: bool, createdAt: int, userId: Id)

  /**
   * A JWT payload.  Tokens issued by login carry `exp`; a token signed elsewhere
   * with the same secret may leave it out and then never expires.
   */
  datatype Claims = Claims(id: Id, username: string, iat: int, exp: Option<int>)

  /** `jwt.sign` / `jwt.verify` under the service's fixed secret, minus the expiry check. */
  datatype Jwt = Jwt(sign: Claims -> string, decode: string -> Result<Claims, string>)

  /** `expiresIn: '1h'`, in seconds. */
  const TokenLifetime: int := 3600

  /** A signer whose tokens decode back to the signed claims and are JWT compact strings (non-empty, no spaces). */
  ghost predicate WellFormedSigner(jwt: Jwt) {
    forall c :: jwt.decode(jwt.sign(c)) == Ok(c) && jwt.sign(c) != "" && ' ' !in jwt.sign(c)
  }

  /**
   * `jwt.verify(token, secret)` on a token that may be undefined: an absent or
   * empty token is refused before decoding, and a decoded token whose `exp` is
   * not after `now` is refused as expired (section 4.1.4 of RFC 7519).
   */
  function JwtVerify(jwt: Jwt, token: Option<string>, now: int): Result<Claims, string> {
    if token.None? || token.value == "" then Err("jwt must be provided")
    else match jwt.decode(token.value)
      case Err(m) => Err(m)
      case Ok(c) => if c.exp.Some? && now >= c.exp.value then Err("jwt expired") else Ok(c)
  }

  /** The claims login signs for a user at time `now`. */
  function IssuedClaims(u: User, now: int): Claims {
    Claims(u.id, u.username, now, Some(now + TokenLifetime))
  }

  /** A body field that satisfies Mongoose's `required` for strings: present and non-empty. */
  predicate Present(field: Option<string>) {
    field.Some? && field.value != ""
  }

  /** `req.body.completed || false` for a boolean body field that may be absent. */
  predicate StoredCompleted(completed: Option<bool>) {
    completed == Some(true)
  }

  /** `if (!authHeader)` fails: no header, or an empty one. */
  predicate HeaderPresent(header: Option<string>) {
    header.Some? && header.value != ""
  }

  /** `authHeader.split(' ')[1]`: the second space-separated piece, undefined when there is no space. */
  function BearerToken(header: string): (r: Option<string>)
    ensures r.None? <==> ' ' !in header
    ensures r.Some? ==> ' ' !in r.value
  {
    var pieces := JsString.Split(header, ' ');
    if |pieces| >= 2 then Some(pieces[1]) else None
  }

  /** The second piece of `scheme + " " + rest` is the first piece of `rest`, whatever the scheme. */
  lemma BearerTokenOf(scheme: string, rest: string)
    requires ' ' !in scheme
    ensures BearerToken(scheme + " " + rest) == Some(JsString.Split(rest, ' ')[0])
  {
    JsString.SplitPrefix(scheme, rest, ' ');
  }

  /** The outcome of the `authenticate` middleware: the handler runs with `req.user`, or a refusal is sent. */
  datatype Gate = Admit(user: Claims) | Deny(status: int, message: string)

  /** The `authenticate` middleware. */
  function Authenticate(header: Option<string>, jwt: Jwt, now: int): (g: Gate)
    ensures !HeaderPresent(header) ==> g == Deny(401, "Unauthorized - No token provided")
    ensures HeaderPresent(header) ==>
      (g.Deny? && g.status == 401 <==> BearerToken(header.value) in {None, Some("")})
    ensures g.Deny? ==> g.status == 401 || g.status == 403
    ensures g.Admit? <==> HeaderPresent(header) && JwtVerify(jwt, BearerToken(header.value), now).Ok?
    ensures g.Admit? ==> JwtVerify(jwt, BearerToken(header.value), now) == Ok(g.user)
  {
    if !HeaderPresent(header) then Deny(401, "Unauthorized - No token provided")
    else
      var token := BearerToken(header.value);
      if token.None? || token.value == "" then Deny(401, "Unauthorized - Invalid header format")
      else match JwtVerify(jwt, token, now)
        case Err(m) => Deny(403, "Forbidden - " + m)
        case Ok(c) => Admit(c)
  }

  /** A header with no space in it is refused with 401 before any token is looked at. */
  lemma {:induction false} AuthenticateWithoutSpace(header: string, jwt: Jwt, now: int)
    requires ' ' !in header
    ensures Authenticate(Some(header), jwt, now).Deny?
    ensures Authenticate(Some(header), jwt, now).status == 401
  {
  }

  /** The scheme word in front of the first space is never checked: any two schemes give the same decision. */
  lemma {:induction false} SchemeIgnored(scheme1: string, scheme2: string, rest: string, jwt: Jwt, now: int)
    requires ' ' !in scheme1 && ' ' !in scheme2
    ensures Authenticate(Some(scheme1 + " " + rest), jwt, now) == Authenticate(Some(scheme2 + " " + rest), jwt, now)
  {
    BearerTokenOf(scheme1, rest);
    BearerTokenOf(scheme2, rest);
    assert (scheme1 + " " + rest) != "" && (scheme2 + " " + rest) != "" by {
      assert |scheme1 + " " + rest| > 0 && |scheme2 + " " + rest| > 0;
    }
  }

  /** For a header in the RFC 6750 form `Bearer <token>`, the middleware decides on exactly that token. */
  lemma {:induction false} AuthenticateBearer(token: string, jwt: Jwt, now: int)
    requires token != "" && ' ' !in token
    ensures Authenticate(Some("Bearer " + token), jwt, now).Admit? <==> JwtVerify(jwt, Some(token), now).Ok?
    ensures Authenticate(Some("Bearer " + token), jwt, now).Admit? ==>
      JwtVerify(jwt, Some(token), now) == Ok(Authenticate(Some("Bearer " + token), jwt, now).user)
    ensures Authenticate(Some("Bearer " + token), jwt, now).Deny? ==>
      Authenticate(Some("Bearer " + token), jwt, now).status == 403
  {
    assert "Bearer " + token == "Bearer" + " " + token;
    BearerTokenOf("Bearer", token);
    JsString.SplitPiece(token, ' ');
  }

  /** What a handler sends back. */
  datatype Body =
    | Message(text: string)
    | Error(message: string)
    | Token(token: string)
    | TodoDoc(todo: Todo)
    | TodoDocs(todos: seq<Todo>)
    | Decoded(claims: Claims)
    | NoContent
    | ErrorPage // Express's default error page, sent when a handler throws

  datatype Response = Response(status: int, body: Body)

  /** The refusal the middleware sends. */
  function Refusal(g: Gate): Response
    requires g.Deny?
  {
    Response(g.status, Error(g.message))
  }

  /** The `:id` route parameter: castable to an ObjectId, or not (the store then raises a CastError). */
  datatype IdParam = ObjectId(id: Id) | Malformed

  /** The fields of a PUT body that are spread into the update, each possibly absent. */
  datatype Patch = Patch(text: Option<string>, completed: Option<bool>, userId: Option<Id>)

  /** `findByIdAndUpdate(id, {...body}, {new: true})` on one document; update validators do not run. */
  function Patched(t: Todo, p: Patch): Todo {
    t.(text := if p.text.Some? then p.text.value else t.text,
       completed := if p.completed.Some? then p.completed.value else t.completed,
       userId := if p.userId.Some? then p.userId.value else t.userId)
  }

  function OwnedBy(owner: Id): Todo -> bool {
    (t: Todo) => t.userId == owner
  }

  function Other(id: Id): Todo -> bool {
    (t: Todo) => t.id != id
  }

  function HasId(id: Id): Todo -> bool {
    (t: Todo) => t.id == id
  }

  function Credentials(username: string, password: string): User -> bool {
    (u: User) => u.username == username && u.password == password
  }

  /** Some user already has this username (the unique index). */
  predicate Taken(users: seq<User>, username: string) {
    exists i :: 0 <= i < |users| && users[i].username == username
  }

  /** The outcome of `User.save()` on `new User({username, password})`: the two required fields and the unique index. */
  predicate CanRegister(users: seq<User>, username: Option<string>, password: Option<string>) {
    Present(username) && Present(password) && !Taken(users, username.value)
  }

  /** GET /api/debug/auth as intended: 400 without a header, 401 for any token that does not verify. */
  function DebugAuthReply(header: Option<string>, jwt: Jwt, now: int): (res: Response)
    ensures !HeaderPresent(header) ==> res.status == 400
    ensures HeaderPresent(header) ==> res.status == 200 || res.status == 401
    ensures HeaderPresent(header) ==> (res.status == 200 <==> Authenticate(header, jwt, now).Admit?)
    ensures res.status == 200 ==> res.body == Decoded(Authenticate(header, jwt, now).user)
  {
    if !HeaderPresent(header) then Response(400, Error("No authorization header present"))
    else match JwtVerify(jwt, BearerToken(header.value), now)
      case Ok(c) => Response(200, Decoded(c))
      case Err(_) => Response(401, Error("Invalid token"))
  }

  /**
   * GET /api/debug/auth as written: when the header has no space, the token is
   * undefined and `jwt.verify` throws.  The catch block has already called
   * `res.status(401)` when its `token.substring` throws again, so Express's
   * default error handler keeps the 401 but sends its error page in place of
   * the JSON body.
   */
  function DebugAuthAsWritten(header: Option<string>, jwt: Jwt, now: int): (res: Response)
    ensures res.status == DebugAuthReply(header, jwt, now).status
    ensures res.body == ErrorPage <==> HeaderPresent(header) && ' ' !in header.value
    ensures res != DebugAuthReply(header, jwt, now) <==> HeaderPresent(header) && ' ' !in header.value
  {
    if !HeaderPresent(header) then Response(400, Error("No authorization header present"))
    else
      var token := BearerToken(header.value);
      match JwtVerify(jwt, token, now)
      case Ok(c) => Response(200, Decoded(c))
      case Err(_) =>
        if token.None? then Response(401, ErrorPage)
        else Response(401, Error("Invalid token"))
  }

  /** The discrepancy: for a header without a space (such as "Bearer" alone) the JSON reply is lost. */
  lemma DebugAuthCrashesWithoutSpace(jwt: Jwt, now: int)
    ensures DebugAuthAsWritten(Some("Bearer"), jwt, now) == Response(401, ErrorPage)
    ensures DebugAuthReply(Some("Bearer"), jwt, now) == Response(401, Error("Invalid token"))
  {
    assert ' ' !in "Bearer" by {
      assert forall i :: 0 <= i < |"Bearer"| ==> "Bearer"[i] != ' ';
    }
  }

  /**
   * A token issued by login, sent back as `Bearer <token>`, admits the caller with
   * the user's id and username until one hour after issue, and is refused with
   * 403 from then on.
   */
  lemma LoginTokenLifetime(jwt: Jwt, u: User, issuedAt: int, now: int)
    requires WellFormedSigner(jwt)
    ensures var g := Authenticate(Some("Bearer " + jwt.sign(IssuedClaims(u, issuedAt))), jwt, now);
      if now < issuedAt + TokenLifetime then g == Admit(IssuedClaims(u, issuedAt))
      else g == Deny(403, "Forbidden - jwt expired")
  {
    var c := IssuedClaims(u, issuedAt);
    var token := jwt.sign(c);
    assert jwt.decode(token) == Ok(c) && token != "" && ' ' !in token;
    assert "Bearer " + token == "Bearer" + " " + token;
    BearerTokenOf("Bearer", token);
    JsString.SplitPiece(token, ' ');
    assert BearerToken("Bearer " + token) == Some(token);
    if now >= issuedAt + TokenLifetime {
      assert JwtVerify(jwt, Some(token), now) == Err("jwt expired");
      assert "Forbidden - " + "jwt expired" == "Forbidden - jwt expired";
    }
  }

  /**
   * In a table of distinct ids, deleting by id removes the one todo with that id,
   * if any, and leaves every other todo where it was.
   */
  lemma {:induction false} DeleteRemovesOnly(todos: seq<Todo>, id: Id)
    requires forall i, j :: 0 <= i < j < |todos| ==> todos[i].id != todos[j].id
    ensures match Seqs.FirstIndex(todos, HasId(id))
      case None => Seqs.Filter(todos, Other(id)) == todos
      case Some(k) => Seqs.Filter(todos, Other(id)) == todos[..k] + todos[k + 1..]
  {
    match Seqs.FirstIndex(todos, HasId(id))
    case None =>
      Seqs.FilterKeepsAll(todos, Other(id));
    case Some(k) =>
      Seqs.FilterDropsOne(todos, Other(id), k);
  }

  /** The service: its two collections and the id counter behind new documents. */
  class Server {
    const jwt: Jwt
    var users: seq<User>
    var todos: seq<Todo>
    var nextId: Id

    /** The schema and index constraints, and ids that are unique and below the counter. */
    ghost predicate Valid()
      reads this
    {
      && (forall i, j :: 0 <= i < j < |users| ==> users[i].username != users[j].username)
      && (forall i :: 0 <= i < |users| ==> users[i].id < nextId && Present(Some(users[i].username)) && Present(Some(users[i].password)))
      && (forall i, j :: 0 <= i < j < |todos| ==> todos[i].id != todos[j].id)
      && (forall i :: 0 <= i < |todos| ==> todos[i].id < nextId)
    }

    constructor (jwt: Jwt)
      ensures Valid()
      ensures this.jwt == jwt && users == [] && todos == [] && nextId == 0
    {
      this.jwt := jwt;
      users, todos, nextId := [], [], 0;
    }

    /** POST /api/register. */
    method Register(username: Option<string>, password: Option<string>) returns (res: Response)
      requires Valid()
      modifies this
      ensures Valid()
      ensures res.status == 201 <==> CanRegister(old(users), username, password)
      ensures res.status == 201 ==>
        && res.body == Message("User registered")
        && users == old(users) + [User(old(nextId), username.value, password.value)]
        && nextId == old(nextId) + 1
      ensures res.status != 201 ==>
        res == Response(400, Error("Registration failed")) && users == old(users) && nextId == old(nextId)
      ensures todos == old(todos)
    {
      if CanRegister(users, username, password) {
        users := users + [User(nextId, username.value, password.value)];
        nextId := nextId + 1;
        res := Response(201, Message("User registered"));
      } else {
        res := Response(400, Error("Registration failed"));
      }
    }

    /** POST /api/login: a token for the user matching both fields, or 401. */
    method Login(username: string, password: string, now: int) returns (res: Response)
      requires Valid()
      ensures res.status == 200 || res.status == 401
      ensures res.status == 200 <==>
        exists i :: 0 <= i < |users| && users[i].username == username && users[i].password == password
      ensures res.status == 200 ==>
        exists i :: 0 <= i < |users| && users[i].username == username && users[i].password == password
          && res.body == Token(jwt.sign(IssuedClaims(users[i], now)))
      ensures res.status == 401 ==> res.body == Error("Invalid credentials")
    {
      match Seqs.FirstIndex(users, Credentials(username, password))
      case None =>
        res := Response(401, Error("Invalid credentials"));
      case Some(k) =>
        res := Response(200, Token(jwt.sign(IssuedClaims(users[k], now))));
    }

    /** GET /api/todos: the caller's todos, in store order. */
    method ListTodos(header: Option<string>, now: int) returns (res: Response)
      ensures Authenticate(header, jwt, now).Deny? ==> res == Refusal(Authenticate(header, jwt, now))
      ensures Authenticate(header, jwt, now).Admit? ==>
        var caller := Authenticate(header, jwt, now).user.id;
        && res.status == 200 && res.body.TodoDocs?
        && Seqs.IsSubsequence(res.body.todos, todos)
        && (forall i :: 0 <= i < |res.body.todos| ==> res.body.todos[i].userId == caller)
        && (forall i :: 0 <= i < |todos| && todos[i].userId == caller ==> todos[i] in res.body.todos)
        && (forall t: Todo :: multiset(res.body.todos)[t] == if t.userId == caller then multiset(todos)[t] else 0)
    {
      var gate := Authenticate(header, jwt, now);
      if gate.Deny? {
        res := Refusal(gate);
      } else {
        var mine := Seqs.Filter(todos, OwnedBy(gate.user.id));
        forall i | 0 <= i < |todos| && todos[i].userId == gate.user.id ensures todos[i] in mine {
          Seqs.FilterMember(todos, OwnedBy(gate.user.id), todos[i]);
        }
        forall t: Todo ensures multiset(mine)[t] == if t.userId == gate.user.id then multiset(todos)[t] else 0 {
          Seqs.FilterCount(todos, OwnedBy(gate.user.id), t);
        }
        res := Response(200, TodoDocs(mine));
      }
    }

    /** POST /api/todos: a new todo owned by the caller; text is required. */
    method CreateTodo(header: Option<string>, now: int, text: Option<string>, completed: Option<bool>, createdAt: int)
      returns (res: Response)
      requires Valid()
      modifies this
      ensures Valid() && users == old(users)
      ensures Authenticate(header, jwt, now).Deny? ==>
        res == Refusal(Authenticate(header, jwt, now)) && todos == old(todos)
      ensures Authenticate(header, jwt, now).Admit? && !Present(text) ==>
        res == Response(400, Error("Bad request")) && todos == old(todos)
      ensures Authenticate(header, jwt, now).Admit? && Present(text) ==>
        var stored := Todo(old(nextId), text.value, StoredCompleted(completed), createdAt, Authenticate(header, jwt, now).user.id);
        res == Response(201, TodoDoc(stored)) && todos == old(todos) + [stored] && nextId == old(nextId) + 1
      ensures !(Authenticate(header, jwt, now).Admit? && Present(text)) ==> nextId == old(nextId)
    {
      var gate := Authenticate(header, jwt, now);
      if gate.Deny? {
        res := Refusal(gate);
      } else if !Present(text) {
        res := Response(400, Error("Bad request"));
      } else {
        var done := if completed.Some? then completed.value else false;
        var stored := Todo(nextId, text.value, done, createdAt, gate.user.id);
        todos := todos + [stored];
        nextId := nextId + 1;
        res := Response(201, TodoDoc(stored));
      }
    }

    /** PUT /api/todos/:id: overwrite the given fields of the todo with that id, whoever owns it. */
    method UpdateTodo(header: Option<string>, now: int, id: IdParam, patch: Patch) returns (res: Response)
      requires Valid()
      modifies this
      ensures Valid() && users == old(users) && nextId == old(nextId)
      ensures Authenticate(header, jwt, now).Deny? ==>
        res == Refusal(Authenticate(header, jwt, now)) && todos == old(todos)
      ensures Authenticate(header, jwt, now).Admit? && id.Malformed? ==>
        res == Response(400, Error("Bad request")) && todos == old(todos)
      ensures Authenticate(header, jwt, now).Admit? && id.ObjectId? ==>
        match Seqs.FirstIndex(old(todos), HasId(id.id))
        case None => res == Response(404, Error("Todo not found")) && todos == old(todos)
        case Some(k) =>
          && todos == old(todos)[k := Patched(old(todos)[k], patch)]
          && res == Response(200, TodoDoc(todos[k]))
    {
      var gate := Authenticate(header, jwt, now);
      if gate.Deny? {
        res := Refusal(gate);
      } else if id.Malformed? {
        res := Response(400, Error("Bad request"));
      } else {
        match Seqs.FirstIndex(todos, HasId(id.id))
        case None =>
          res := Response(404, Error("Todo not found"));
        case Some(k) =>
          todos := todos[k := Patched(todos[k], patch)];
          res := Response(200, TodoDoc(todos[k]));
      }
    }

    /** DELETE /api/todos/:id: remove the todo with that id if there is one, whoever owns it. */
    method DeleteTodo(header: Option<string>, now: int, id: IdParam) returns (res: Response)
      requires Valid()
      modifies this
      ensures Valid() && users == old(users) && nextId == old(nextId)
      ensures Authenticate(header, jwt, now).Deny? ==>
        res == Refusal(Authenticate(header, jwt, now)) && todos == old(todos)
      ensures Authenticate(header, jwt, now).Admit? && id.Malformed? ==>
        res == Response(400, Error("Bad request")) && todos == old(todos)
      ensures Authenticate(header, jwt, now).Admit? && id.ObjectId? ==>
        res == Response(204, NoContent) && todos == Seqs.Filter(old(todos), Other(id.id))
    {
      var gate := Authenticate(header, jwt, now);
      if gate.Deny? {
        res := Refusal(gate);
      } else if id.Malformed? {
        res := Response(400, Error("Bad request"));
      } else {
        ghost var before := todos;
        todos := Seqs.Filter(todos, Other(id.id));
        ghost var pos := Seqs.Embedding(todos, before);
        assert forall i :: 0 <= i < |todos| ==> todos[i].id == before[pos[i]].id;
        res := Response(204, NoContent);
      }
    }

    /** GET /api/debug/auth (with the crash on a header without a space corrected). */
    method DebugAuth(header: Option<string>, now: int) returns (res: Response)
      ensures res == DebugAuthReply(header, jwt, now)
    {
      res := DebugAuthReply(header, jwt, now);
    }
  }
}
