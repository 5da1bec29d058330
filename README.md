# A multi-user to-do application — a Dafny model

This project models the core of a small multi-user to-do application in three parts:

- **The REST backend** (`backend/server.js`). It keeps two collections: users, with a unique and required username and a required password, and todos. The `authenticate` middleware reads the `Authorization` header, which follows the Bearer scheme of section 2.1 of RFC 6750. It verifies JWTs (RFC 7519), including the `exp` check of section 4.1.4. The routes are register, login, list, create, update and delete of todos, plus the token-debugging route. The store is two in-memory tables held by a `Backend.Server` object. The routes are methods that change those tables. `jwt.sign`/`jwt.verify` under the fixed secret is an oracle `Jwt(sign, decode)`; no cryptography is modelled. The expiry check is written out in `JwtVerify`.
- **The client's session and task list** (`frontend/src/App.js`, `frontend/src/services/api.js`). `localStorage` is a `Browser.LocalStorage` object holding a string map, with the two keys `token` and `username`. The `api` instance's request interceptor adds `Bearer <token>`. Its response interceptor clears the token on a 401/403 and re-rejects the error. The App component is a `TodoApp.App` object with the fields `todos`, `authenticated`, `username`, `loading` and `authError`. Its handlers append, filter and map-patch the list.
- **The two forms** (`frontend/src/components/Login.js`, `frontend/src/components/TodoForm.js`). Each has its guard (empty fields, password confirmation, trimmed text) and the state each outcome leaves.

Two small modules support these. `JsString` holds ECMAScript's `split(' ')` and `trim()`, with a split/join round trip and trim lemmas. `Seqs` holds `filter`, a first-index search and subsequences. `Interop` connects client and server. The interceptor's header is exactly what the middleware parses, and a login token admits its user for one hour. A `Scenario` method walks through register, a duplicate register, login, create, list, toggle, delete and list. It has no contract of its own; its steps are the contracts of `Interop.RegisterTwice`, `Interop.SignUp`, `Interop.AddMilk` and `Interop.TaskLifecycle`.

The network is never modelled. Each client operation takes the server's reply as a parameter: a settled promise, `Resolved(data)` or `Rejected(HttpError(status))`. Clock values (`now`, `createdAt`) and the JWT oracle are parameters too.

Some details of the code that the model keeps:
- Registration answers 400 both for a taken username and for a missing or empty field.
- A header with no second word answers 401. Only a token that is present and fails verification gets 403.
- PUT runs without update validators. It can store an empty `text`, and because the whole body is spread into the update it can reassign `userId`. So todo text is guaranteed non-empty only at creation.
- The client changes its list only after the server confirms a create, toggle or delete.
- The server's debug route follows the corrected behaviour described under "## Findings"; the code as written is modelled separately by `Backend.DebugAuthAsWritten`.

## Model

| member | source | states |
|---|---|---|
| JsString.Split | backend/server.js:52 | `split(' ')` returns at least one piece; no piece contains the separator; there is exactly one piece iff the input has no separator; joining the pieces gives back the input |
| JsString.SplitJoin | backend/server.js:52 | splitting a join of separator-free pieces gives back the same pieces |
| JsString.TrimSlice | frontend/src/components/TodoForm.js:14 | `trim()` returns a contiguous slice of its input, and the dropped prefix and suffix are all whitespace |
| JsString.TrimBounds | frontend/src/components/TodoForm.js:14 | gives the offsets of that slice explicitly |
| JsString.TrimEnds | frontend/src/components/TodoForm.js:14 | the result of `trim()` neither starts nor ends with a whitespace character |
| JsString.TrimEmpty | frontend/src/components/TodoForm.js:14 | `trim()` is empty exactly when every character is whitespace |
| Seqs.Filter | frontend/src/App.js:120 | filter keeps only elements that satisfy the predicate, as a subsequence (original relative order) no longer than the input |
| Seqs.FilterMember | frontend/src/App.js:120 | an element survives the filter iff it occurs in the input and satisfies the predicate |
| Seqs.FilterCount | frontend/src/App.js:120 | filter keeps every copy of a satisfying element and drops every copy of the others; with `Filter`'s subsequence clause this fixes the result uniquely |
| Backend.BearerToken | backend/server.js:52 | the second space-separated piece is undefined exactly when the header has no space, and never contains a space |
| Backend.Authenticate | backend/server.js:42-67 | no (or empty) header gives 401 "No token provided"; a missing or empty second piece gives 401; otherwise the token is verified: failure gives 403, success admits `req.user` = the decoded claims |
| Backend.AuthenticateWithoutSpace | backend/server.js:52-56 | a header with no space is refused with 401 |
| Backend.SchemeIgnored | backend/server.js:52-56 | the word before the first space is never checked: any two scheme words give the same decision |
| Backend.AuthenticateBearer | backend/server.js:52-66 | for `Bearer <token>`, the caller is admitted exactly when that token verifies, with its claims; otherwise 403 |
| Backend.LoginTokenLifetime | backend/server.js:87 | a login token sent as `Bearer <token>` admits {id, username} strictly before issue time + 3600 s, and gets 403 "jwt expired" from then on |
| Backend.DeleteRemovesOnly | backend/server.js:139 | with distinct ids, delete-by-id leaves the table unchanged if the id is absent, and otherwise removes just that one todo, keeping the others in place |
| Backend.DebugAuthReply | backend/server.js:152-180 | the corrected debug route (see ## Findings): without a header it answers 400; otherwise it answers 200 with the claims exactly when the middleware would admit, and 401 in every other case |
| Backend.DebugAuthAsWritten | backend/server.js:152-180 | the debug route as written: its status always equals the corrected route's; it sends Express's error page instead of a JSON body exactly when a non-empty header has no space, and those are the only headers where the two routes differ |
| Backend.DebugAuthCrashesWithoutSpace | backend/server.js:163-178 | for the header "Bearer", the route as written answers 401 with Express's error page, and the corrected route answers 401 with `{error: "Invalid token"}` |
| Backend.Server.constructor | backend/server.js:24-39 | an empty service: no users, no todos |
| Backend.Server.Register | backend/server.js:70-79 | 201 and one appended user exactly when username and password are present and non-empty and the username is not taken; otherwise 400 and no table changes; the schema invariant is kept |
| Backend.Server.Login | backend/server.js:81-92 | 200 exactly when some user matches both fields, with a token signed over that user's {id, username} and a 1-hour expiry; otherwise 401 "Invalid credentials" |
| Backend.Server.ListTodos | backend/server.js:95-102 | a refused header gets the middleware's refusal; otherwise 200 with a subsequence of the table (store order) that holds every copy of each of the caller's todos and nothing else, duplicates counted |
| Backend.Server.CreateTodo | backend/server.js:104-116 | a refusal changes nothing; missing or empty text gives 400 and changes nothing; otherwise 201 and one appended todo owned by the caller, with `completed = body.completed \|\| false` |
| Backend.Server.UpdateTodo | backend/server.js:118-135 | a refusal or a malformed id (400) changes nothing; an absent id gives 404; otherwise only that todo is overwritten with the given fields, and the new record is returned; ownership is not checked |
| Backend.Server.DeleteTodo | backend/server.js:137-144 | a refusal or a malformed id (400) changes nothing; otherwise 204 whether or not the id existed, and the table loses exactly the todos with that id; ownership is not checked |
| Backend.Server.DebugAuth | backend/server.js:152-180 | the server answers the debug route as the corrected `DebugAuthReply` does (see ## Findings): always a JSON body, never the error page of the code as written; it changes no table |
| Browser.LoggedOut | frontend/src/services/api.js:67-71 | logout leaves neither `token` nor `username`, and every other key as it was |
| Browser.LoggedOutAbsorbs | frontend/src/services/api.js:67-71 | logout is idempotent, and removing the token first makes no difference |
| Api.WithBearerSpec | frontend/src/services/api.js:14-21 | Authorization becomes `Bearer <token>` exactly when a non-empty token is stored; otherwise the headers are unchanged; no other header changes |
| Api.InterceptRequest | frontend/src/services/api.js:13-22 | the config's headers are updated in place as above, and the same config is returned |
| Api.InterceptResponseError | frontend/src/services/api.js:35-43 | 401/403 removes only `token`; other errors leave storage untouched; the same error is always re-rejected |
| Api.Send | frontend/src/services/api.js:12-44 | a call through `api` sends the interceptor's headers; its result is the server's reply, unchanged; storage changes only by the response interceptor |
| Api.Login | frontend/src/services/api.js:48-59 | a successful login stores the returned token; a failed one leaves storage unchanged; the outcome is passed to the caller |
| Api.Logout | frontend/src/services/api.js:67-71 | removes `token` and `username` |
| TodoApp.WithoutId | frontend/src/App.js:120 | after the delete, no entry has the id, and the rest keep their relative order |
| TodoApp.WithoutIdMember | frontend/src/App.js:120 | an entry survives the delete iff it was in the list and has a different id |
| TodoApp.WithoutIdCount | frontend/src/App.js:120 | the delete keeps every copy of an entry with a different id, duplicates included, and no entry with the id |
| TodoApp.WithCompleted | frontend/src/App.js:129-131 | same length; entries with the id have `completed` set and nothing else changed; every other entry is unchanged |
| TodoApp.WithCompletedKeepsIds | frontend/src/App.js:129-131 | the toggle keeps every id in place and sets `completed` on the matching entries |
| TodoApp.App.constructor | frontend/src/App.js:11-16 | initially signed out, no username, empty list, loading, no auth error |
| TodoApp.App.FetchTodos | frontend/src/App.js:92-104 | success replaces the list; 401/403 clears `authenticated` and both storage keys; any other error changes nothing |
| TodoApp.App.CheckAuth | frontend/src/App.js:65-90 | always ends not loading; with no token nothing else changes; a failed check clears both keys and sets the session-expired message; a passed check signs in as the stored username (or "User") and then fetches the list |
| TodoApp.App.AddTodo | frontend/src/App.js:106-115 | success appends the server's todo at the end and returns it; failure leaves the list unchanged and rethrows the error |
| TodoApp.App.DeleteTodo | frontend/src/App.js:117-124 | success filters out the id; failure changes nothing |
| TodoApp.App.ToggleComplete | frontend/src/App.js:126-135 | success map-patches `completed` on the id; failure changes nothing |
| TodoApp.App.HandleLogin | frontend/src/App.js:137-142 | signed in as the given name, the name stored, then the list is fetched, with FetchTodos' outcomes |
| TodoApp.App.HandleLogout | frontend/src/App.js:144-149 | signed out, empty username, empty list, both storage keys cleared |
| LoginView.Validate | frontend/src/components/Login.js:37-47 | the submit goes ahead iff both fields are non-empty and, in register mode, the password equals the confirmation; with both fields filled in register mode, a mismatch gives "Passwords do not match"; every refusal is one of the two guard messages |
| LoginView.EmptyFieldFirst | frontend/src/components/Login.js:38-41 | an empty username or password always gives "Please fill in all fields" |
| LoginView.ConfirmIgnoredInLogin | frontend/src/components/Login.js:44-47 | in login mode the confirmation field has no effect |
| LoginView.LoginForm.constructor | frontend/src/components/Login.js:23-30 | login mode, empty fields, no error, not loading, snackbar closed |
| LoginView.LoginForm.HandleSubmit | frontend/src/components/Login.js:34-67 | a guard failure sets its message and sends nothing; login success stores the token and calls onLogin with the entered username; register success switches to login mode and opens the snackbar; failure sets "Invalid credentials" or "Registration failed" by mode; every attempt that passes validation ends not loading |
| TodoEntry.Payload | frontend/src/components/TodoForm.js:14-23 | no payload iff the input is all whitespace; otherwise `{text: trim(input), completed: false}` with non-empty text |
| TodoEntry.TodoForm.constructor | frontend/src/components/TodoForm.js:8-10 | empty input, no error, snackbar closed |
| TodoEntry.TodoForm.HandleSubmit | frontend/src/components/TodoForm.js:12-31 | blank input sets "Please enter a task" and calls nothing; otherwise onAddTodo gets the payload; success clears input and error and opens the snackbar; failure keeps the input and sets the failure message |
| Interop.InterceptorHeaderAuthenticates | frontend/src/services/api.js:18-20 | the header the interceptor sets for a stored token is admitted by the middleware exactly when that token verifies, and refused with 403 otherwise |
| Interop.SessionLastsOneHour | backend/server.js:87-88 | the token login returns, stored and sent back by the client, admits the user for one hour and gets 403 afterwards |
| Interop.FormPayloadAccepted | frontend/src/components/TodoForm.js:20-23 | a non-blank form input always yields text that passes the create route's required check, and its `completed: false` makes the route store `completed || false` as false |
| Interop.RegisterTwice | backend/server.js:70-79 | registering "alice" succeeds on an empty service; registering the name again fails; afterwards exactly one user exists and no todo |
| Interop.SignUp | backend/server.js:70-92 | registering "alice" works once and a second registration of the name fails; logging in yields a header that admits her |
| Interop.AddMilk | backend/server.js:95-116 | after a signed-in user creates "buy milk" and lists the todos, the table holds exactly that todo, with the next id, owned by the user and not completed |
| Interop.TaskLifecycle | backend/server.js:95-144 | after "buy milk" is created, listed, marked done by PUT and deleted, the table is empty again, still satisfies its invariant, and the final list answers 200 with no todos |

## Left out

- Express wiring, CORS, the Mongoose connection, `app.listen` and all console logging: plumbing with no decisions in it.
- The `/api/test` route: it returns a constant message and a wall-clock timestamp.
- JWT cryptography and the hard-coded secret. Signing and decoding are an oracle. `WellFormedSigner` assumes of it only that a signed token decodes back to its claims and is a non-empty string with no spaces (a JWT compact serialisation).
- Store failures, such as a lost connection, and inputs Mongoose cannot cast. Neither is modelled. They are where the 500 of GET /api/todos and the 400 "Login failed" come from. A login body field that is an object, such as `{"username": {"a": 1}}`, makes `findOne` reject with a CastError. A token signed with the same secret whose `id` claim is not an ObjectId string makes `Todo.find` throw. Claim ids are naturals (`Backend.Id`), so such a token cannot be written in the model. The 400 from PUT and DELETE is modelled as a malformed `:id` (a CastError).
- JSON type casting of body fields: a non-string `text`, a non-boolean `completed`, or PUT body fields other than `text`, `completed` and `userId`.
- Backend.Server.Login: its body fields are plain strings. An object-valued field is a query condition to Mongoose: `{"password": {"$ne": ""}}` matches the user whatever the password, so a token is issued without the password. The string-only model excludes this, as it excludes Mongoose dropping an undefined field from the `findOne` filter.
- `authService.register` is a plain POST with no state change, so it is modelled as the reply parameter of `LoginForm.HandleSubmit`. `authService.verifyToken` and the four `todoService` calls are each a `Send` through the `api` instance. Their URLs and bodies are not modelled.
- The request interceptor's error handler (frontend/src/services/api.js:23-26). It would run only if an earlier request interceptor failed, and there is none.
- The outer catch of `checkAuth` (frontend/src/App.js:84-86). The inner catch handles every failure and `logout` cannot throw.
- The mount effect (frontend/src/App.js:56-63) calls `checkAuth` when a token is stored, and otherwise clears `loading` exactly as `CheckAuth`'s no-token branch does. It is not a separate member.
- The forms do not hold the App. `onLogin` is reported as an out-parameter of `LoginForm.HandleSubmit`. `onAddTodo`'s settled promise is a parameter of `TodoForm.HandleSubmit`.
- Asynchronous ordering. Every handler runs to completion before the next; `handleLogin`'s un-awaited `fetchTodos` completes inside `HandleLogin`. Lost updates from handlers closing over a stale `todos` are a concurrency effect outside a sequential model.
- Rendering, theme and dark mode, animation, the debug panel of the login form, `TodoList.js` (its only logic is the checkbox's `!todo.completed`) and `AppHeader.js` (the avatar initial).
- The content of Express's default error page (HTML, and the stack trace outside production) is not modelled. It is the single body `Backend.ErrorPage`.
- ObjectId generation is a single counter. `createdAt` is a parameter, not `Date.now`.
- Password hashing: the code stores and compares plaintext, and so does the model.
- Strings are sequences of Unicode scalar values, not UTF-16 code units. Every whitespace character `trim()` removes lies in the Basic Multilingual Plane, so this makes no difference to the guards.

## Findings

| source | as written | input that shows it | evidently intended | confidence | as-written member | corrected member |
|---|---|---|---|---|---|---|
| backend/server.js:163-178 | with no space in the header, the token is undefined and `jwt.verify` throws. The catch block calls `res.status(401)` and then throws a TypeError from `token.substring(0, 10)` while building its JSON body. Express's default error handler keeps the 401 but sends its own error page, which includes the stack trace outside production, instead of the JSON body | `GET /api/debug/auth` with `Authorization: Bearer` | 401 with `{error: "Invalid token", ...}`, as for every other token that does not verify | medium; not executed | Backend.DebugAuthAsWritten | Backend.DebugAuthReply |
