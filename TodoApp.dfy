/**
 * The root component's state and handlers: the task list, the session flags,
 * and the transitions that the service calls drive.  Each handler takes the
 * server's reply to the request it makes.
 */
module TodoApp {
  import opened Wrappers
  import opened Browser
  import opened Api
  import Seqs

  /** The component state the handlers change (the theme flag is left out). */
  datatype View = View(todos: seq<Todo>, authenticated: bool, username: string, loading: bool, authError: Option<string>)

  const SessionExpired: string := "Your session has expired. Please log in again."

  /** The `todo => todo._id !== id` test. */
  function NotId(id: string): Todo -> bool {
    (t: Todo) => t.id != id
  }

  /** `todos.filter(todo => todo._id !== id)`: no entry keeps the id, the others stay in order. */
  function WithoutId(todos: seq<Todo>, id: string): (r: seq<Todo>)
    ensures forall i :: 0 <= i < |r| ==> r[i].id != id
    ensures Seqs.IsSubsequence(r, todos)
  {
    Seqs.Filter(todos, NotId(id))
  }

  /** Every entry without the id survives the delete; entries with it are gone. */
  lemma WithoutIdMember(todos: seq<Todo>, id: string, t: Todo)
    ensures t in WithoutId(todos, id) <==> t in todos && t.id != id
  {
    Seqs.FilterMember(todos, NotId(id), t);
  }

  /** The delete keeps every copy of an entry with another id, and no entry with the id. */
  lemma WithoutIdCount(todos: seq<Todo>, id: string, t: Todo)
    ensures multiset(WithoutId(todos, id))[t] == if t.id != id then multiset(todos)[t] else 0
  {
    Seqs.FilterCount(todos, NotId(id), t);
  }

  /** `todos.map(todo => todo._id === id ? {...todo, completed} : todo)`. */
  function WithCompleted(todos: seq<Todo>, id: string, completed: bool): (r: seq<Todo>)
    ensures |r| == |todos|
    ensures forall i :: 0 <= i < |r| && todos[i].id == id ==> r[i] == todos[i].(completed := completed)
    ensures forall i :: 0 <= i < |r| && todos[i].id != id ==> r[i] == todos[i]
  {
    if todos == [] then []
    else
      var head := if todos[0].id == id then todos[0].(completed := completed) else todos[0];
      [head] + WithCompleted(todos[1..], id, completed)
  }

  /** The toggle keeps every entry's id, so the set of ids in the list is unchanged. */
  lemma WithCompletedKeepsIds(todos: seq<Todo>, id: string, completed: bool)
    ensures forall i :: 0 <= i < |todos| ==> WithCompleted(todos, id, completed)[i].id == todos[i].id
    ensures forall i :: 0 <= i < |todos| && todos[i].id == id ==> WithCompleted(todos, id, completed)[i].completed == completed
  {
  }

  /** `if (token)` on `localStorage.getItem('token')`. */
  predicate HasToken(items: map<string, string>) {
    TokenKey in items && items[TokenKey] != ""
  }

  /** `localStorage.getItem('username') || 'User'`. */
  function StoredName(items: map<string, string>): string {
    if UsernameKey in items && items[UsernameKey] != "" then items[UsernameKey] else "User"
  }

  /** The App component. */
  class App {
    const storage: LocalStorage
    var authenticated: bool
    var username: string
    var todos: seq<Todo>
    var loading: bool
    var authError: Option<string>

    function State(): View
      reads this
    {
      View(todos, authenticated, username, loading, authError)
    }

    /** The initial state: signed out, empty list, loading. */
    constructor (storage: LocalStorage)
      ensures this.storage == storage
      ensures State() == View([], false, "", true, None)
    {
      this.storage := storage;
      authenticated, username, todos, loading, authError := false, "", [], true, None;
    }

    /** `fetchTodos`: replace the list; a 401/403 signs out; any other error leaves everything as it was. */
    method FetchTodos(reply: Outcome<seq<Todo>>)
      modifies this, storage
      ensures reply.Resolved? ==>
        State() == old(State()).(todos := reply.value) && storage.items == old(storage.items)
      ensures reply.Rejected? && IsAuthFailure(reply.error) ==>
        State() == old(State()).(authenticated := false) && storage.items == LoggedOut(old(storage.items))
      ensures reply.Rejected? && !IsAuthFailure(reply.error) ==>
        State() == old(State()) && storage.items == old(storage.items)
    {
      var _, r := Send(storage, reply);
      match r
      case Resolved(data) =>
        todos := data;
      case Rejected(e) =>
        if IsAuthFailure(e) {
          Logout(storage);
          authenticated := false;
        }
    }

    /** `checkAuth`: with a stored token, verify it and then load the list; always ends not loading. */
    method CheckAuth(verifyReply: Outcome<TokenInfo>, fetchReply: Outcome<seq<Todo>>)
      modifies this, storage
      ensures !loading
      ensures !HasToken(old(storage.items)) ==>
        State() == old(State()).(loading := false) && storage.items == old(storage.items)
      ensures HasToken(old(storage.items)) && verifyReply.Rejected? ==>
        && State() == old(State()).(loading := false, authError := Some(SessionExpired))
        && storage.items == LoggedOut(old(storage.items))
      ensures HasToken(old(storage.items)) && verifyReply.Resolved? ==>
        var signedIn := old(State()).(authenticated := true, username := StoredName(old(storage.items)), loading := false);
        match fetchReply
        case Resolved(data) =>
          State() == signedIn.(todos := data) && storage.items == old(storage.items)
        case Rejected(e) =>
          if IsAuthFailure(e) then
            State() == signedIn.(authenticated := false) && storage.items == LoggedOut(old(storage.items))
          else
            State() == signedIn && storage.items == old(storage.items)
    {
      var token := storage.GetItem(TokenKey);
      if token.None? || token.value == "" {
        loading := false;
        return;
      }
      var _, verified := Send(storage, verifyReply);
      match verified {
        case Resolved(_) =>
          authenticated := true;
          username := StoredName(storage.items);
          FetchTodos(fetchReply);
        case Rejected(_) =>
          Logout(storage);
          authError := Some(SessionExpired);
      }
      loading := false;
    }

    /** `addTodo`: append the todo the server returned; on failure rethrow and leave the list alone. */
    method AddTodo(reply: Outcome<Todo>) returns (r: Outcome<Todo>)
      modifies this, storage
      ensures r == reply
      ensures reply.Resolved? ==> State() == old(State()).(todos := old(todos) + [reply.value])
      ensures reply.Rejected? ==> State() == old(State())
      ensures storage.items == AfterResponse(old(storage.items), reply)
    {
      var _, created := Send(storage, reply);
      if created.Resolved? {
        todos := todos + [created.value];
      }
      r := created;
    }

    /** `deleteTodo`: drop the entries with the id once the server confirms; errors are swallowed. */
    method DeleteTodo(id: string, reply: Outcome<()>)
      modifies this, storage
      ensures reply.Resolved? ==> State() == old(State()).(todos := WithoutId(old(todos), id))
      ensures reply.Rejected? ==> State() == old(State())
      ensures storage.items == AfterResponse(old(storage.items), reply)
    {
      var _, deleted := Send(storage, reply);
      if deleted.Resolved? {
        todos := WithoutId(todos, id);
      }
    }

    /** `toggleComplete`: patch `completed` on the entries with the id once the server confirms; errors are swallowed. */
    method ToggleComplete(id: string, completed: bool, reply: Outcome<Todo>)
      modifies this, storage
      ensures reply.Resolved? ==> State() == old(State()).(todos := WithCompleted(old(todos), id, completed))
      ensures reply.Rejected? ==> State() == old(State())
      ensures storage.items == AfterResponse(old(storage.items), reply)
    {
      var _, updated := Send(storage, reply);
      if updated.Resolved? {
        todos := WithCompleted(todos, id, completed);
      }
    }

    /** `handleLogin`: mark signed in, remember the username, then load the list. */
    method HandleLogin(name: string, fetchReply: Outcome<seq<Todo>>)
      modifies this, storage
      ensures var signedIn := old(State()).(authenticated := true, username := name);
        match fetchReply
        case Resolved(data) =>
          State() == signedIn.(todos := data) && storage.items == old(storage.items)[UsernameKey := name]
        case Rejected(e) =>
          if IsAuthFailure(e) then
            State() == signedIn.(authenticated := false) && storage.items == LoggedOut(old(storage.items))
          else
            State() == signedIn && storage.items == old(storage.items)[UsernameKey := name]
    {
      authenticated := true;
      username := name;
      storage.SetItem(UsernameKey, name);
      FetchTodos(fetchReply);
    }

    /** `handleLogout`: signed out, no username, empty list, both session keys cleared. */
    method HandleLogout()
      modifies this, storage
      ensures State() == old(State()).(authenticated := false, username := "", todos := [])
      ensures storage.items == LoggedOut(old(storage.items))
    {
      Logout(storage);
      authenticated := false;
      username := "";
      todos := [];
    }
  }
}
