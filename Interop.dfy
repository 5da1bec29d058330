/**
 * How the client and the server fit together: the header the client's request
 * interceptor builds is the header the server's middleware parses, and the
 * task form's payload is what the create route accepts.
 */
module Interop {
  import opened Wrappers
  import Backend
  import Api
  import TodoEntry
  import JsString
  import Seqs

  /** The Authorization header the request interceptor sets for a stored token. */
  function SentHeader(token: string): string
    requires token != ""
  {
    Api.WithBearer(Api.DefaultHeaders, Some(token))[Api.Authorization]
  }

  /** The middleware admits the interceptor's header exactly when the stored token verifies, and as its claims. */
  lemma {:induction false} InterceptorHeaderAuthenticates(token: string, jwt: Backend.Jwt, now: int)
    requires token != "" && ' ' !in token
    ensures var g := Backend.Authenticate(Some(SentHeader(token)), jwt, now);
      && (g.Admit? <==> Backend.JwtVerify(jwt, Some(token), now).Ok?)
      && (g.Admit? ==> Backend.JwtVerify(jwt, Some(token), now) == Ok(g.user))
      && (g.Deny? ==> g.status == 403)
  {
    assert SentHeader(token) == "Bearer " + token;
    Backend.AuthenticateBearer(token, jwt, now);
  }

  /**
   * A session end to end: the token login hands out, stored by the client and sent
   * back by its interceptor, admits the user for one hour and is refused afterwards.
   */
  lemma {:induction false} SessionLastsOneHour(jwt: Backend.Jwt, u: Backend.User, issuedAt: int, now: int)
    requires Backend.WellFormedSigner(jwt)
    ensures var token := jwt.sign(Backend.IssuedClaims(u, issuedAt));
      token != "" &&
      var g := Backend.Authenticate(Some(SentHeader(token)), jwt, now);
      if now < issuedAt + Backend.TokenLifetime then g == Backend.Admit(Backend.IssuedClaims(u, issuedAt))
      else g == Backend.Deny(403, "Forbidden - jwt expired")
  {
    var token := jwt.sign(Backend.IssuedClaims(u, issuedAt));
    assert token != "";
    assert SentHeader(token) == "Bearer " + token;
    Backend.LoginTokenLifetime(jwt, u, issuedAt, now);
  }

  /** Whatever the form submits passes the create route's required-text check and is stored as not completed. */
  lemma FormPayloadAccepted(input: string)
    requires !JsString.AllWhiteSpace(input)
    ensures TodoEntry.Payload(input).Some?
    ensures Backend.Present(Some(TodoEntry.Payload(input).value.text))
    ensures !Backend.StoredCompleted(Some(TodoEntry.Payload(input).value.completed))
  {
  }

  /** Register "alice", then fail to register her name again: one user is left. */
  method RegisterTwice(server: Backend.Server)
    requires server.Valid() && server.users == [] && server.todos == [] && server.nextId == 0
    modifies server
    ensures server.Valid() && server.users == [Backend.User(0, "alice", "pw1")] && server.todos == [] && server.nextId == 1
  {
    assert |"alice"| == 5 && |"pw1"| == 3;
    var r := server.Register(Some("alice"), Some("pw1"));
    assert r.status == 201;
    var alice := Backend.User(0, "alice", "pw1");
    assert server.users == [alice];
    r := server.Register(Some("alice"), Some("other"));
    assert server.users[0].username == "alice";
    assert r.status == 400 && server.users == [alice];
  }

  /** Register "alice", fail to register her name again, and log in: the token admits her. */
  method SignUp(server: Backend.Server, now: int) returns (header: Option<string>)
    requires server.Valid() && server.users == [] && server.todos == [] && server.nextId == 0
    requires Backend.WellFormedSigner(server.jwt)
    modifies server
    ensures server.Valid() && server.users == [Backend.User(0, "alice", "pw1")] && server.todos == [] && server.nextId == 1
    ensures Backend.Authenticate(header, server.jwt, now + 1) == Backend.Admit(Backend.IssuedClaims(Backend.User(0, "alice", "pw1"), now))
  {
    RegisterTwice(server);
    var alice := Backend.User(0, "alice", "pw1");
    assert server.users[0].username == "alice" && server.users[0].password == "pw1";
    var r := server.Login("alice", "pw1", now);
    assert r.status == 200 && r.body == Backend.Token(server.jwt.sign(Backend.IssuedClaims(alice, now)));
    header := Some("Bearer " + r.body.token);
    Backend.LoginTokenLifetime(server.jwt, alice, now, now + 1);
  }

  /** Create "buy milk" and see it listed. */
  method AddMilk(server: Backend.Server, header: Option<string>, now: int) returns (milk: Backend.Todo)
    requires server.Valid() && server.todos == [] && server.nextId == 1
    requires Backend.Authenticate(header, server.jwt, now).Admit?
    requires Backend.Authenticate(header, server.jwt, now).user.id == 0
    modifies server
    ensures server.Valid() && server.todos == [milk]
    ensures milk == Backend.Todo(1, "buy milk", false, now, 0)
  {
    assert |"buy milk"| == 8;
    var r := server.CreateTodo(header, now, Some("buy milk"), None, now);
    milk := Backend.Todo(1, "buy milk", false, now, 0);
    assert r == Backend.Response(201, Backend.TodoDoc(milk)) && server.todos == [milk];

    r := server.ListTodos(header, now);
    assert server.todos[0] == milk && milk.userId == 0;
    assert r.status == 200 && milk in r.body.todos;
  }

  /** Create "buy milk", see it listed, mark it done, delete it, and find the list empty. */
  method TaskLifecycle(server: Backend.Server, header: Option<string>, now: int) returns (last: Backend.Response)
    requires server.Valid() && server.todos == [] && server.nextId == 1
    requires Backend.Authenticate(header, server.jwt, now).Admit?
    requires Backend.Authenticate(header, server.jwt, now).user.id == 0
    modifies server
    ensures server.Valid() && server.todos == []
    ensures last == Backend.Response(200, Backend.TodoDocs([]))
  {
    var milk := AddMilk(server, header, now);

    var r := server.UpdateTodo(header, now, Backend.ObjectId(1), Backend.Patch(None, Some(true), None));
    assert Seqs.FirstIndex([milk], Backend.HasId(1)) == Some(0);
    assert r == Backend.Response(200, Backend.TodoDoc(milk.(completed := true)));

    r := server.DeleteTodo(header, now, Backend.ObjectId(1));
    assert r.status == 204;
    Backend.DeleteRemovesOnly([milk.(completed := true)], 1);
    assert server.todos == [];

    last := server.ListTodos(header, now);
  }

  /** The whole walk-through, from an empty service. */
  method Scenario(jwt: Backend.Jwt, now: int)
    requires Backend.WellFormedSigner(jwt)
  {
    var server := new Backend.Server(jwt);
    var header := SignUp(server, now);
    var _ := TaskLifecycle(server, header, now + 1);
  }
}
