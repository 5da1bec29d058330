/**
 * The sign-in / registration form: the guards that decide whether a submit
 * reaches the auth service, and the state each outcome leaves behind.
 */
module LoginView {
  import opened Wrappers
  import opened Browser
  import opened Api

  const FillInAllFields: string := "Please fill in all fields"
  const PasswordsDiffer: string := "Passwords do not match"
  const InvalidCredentials: string := "Invalid credentials"
  const RegistrationFailed: string := "Registration failed"

  /** The guards of `handleSubmit`, in order: the error they set, or None when the submit goes ahead. */
  function Validate(isLogin: bool, username: string, password: string, confirmPassword: string): (r: Option<string>)
    ensures r.None? <==> username != "" && password != "" && (isLogin || password == confirmPassword)
    ensures r.Some? ==> r.value == FillInAllFields || r.value == PasswordsDiffer
    ensures username != "" && password != "" && !isLogin && password != confirmPassword ==> r == Some(PasswordsDiffer)
  {
    if username == "" || password == "" then Some(FillInAllFields)
    else if !isLogin && password != confirmPassword then Some(PasswordsDiffer)
    else None
  }

  /** An empty field always wins, whatever the mode and the confirmation. */
  lemma EmptyFieldFirst(isLogin: bool, username: string, password: string, confirmPassword: string)
    requires username == "" || password == ""
    ensures Validate(isLogin, username, password, confirmPassword) == Some(FillInAllFields)
  {
  }

  /** In login mode the confirmation field plays no part. */
  lemma ConfirmIgnoredInLogin(username: string, password: string, confirm1: string, confirm2: string)
    ensures Validate(true, username, password, confirm1) == Validate(true, username, password, confirm2)
  {
  }

  /** The request a submit sends, if any. */
  datatype Request = NoRequest | LoginRequest(credentials: Credentials) | RegisterRequest(credentials: Credentials)

  /** The form's state fields. */
  datatype Fields = Fields(isLogin: bool, username: string, password: string, confirmPassword: string,
                           error: string, loading: bool, openSnackbar: bool)

  /** The Login component. */
  class LoginForm {
    const storage: LocalStorage
    var isLogin: bool
    var username: string
    var password: string
    var confirmPassword: string
    var error: string
    var loading: bool
    var openSnackbar: bool

    function State(): Fields
      reads this
    {
      Fields(isLogin, username, password, confirmPassword, error, loading, openSnackbar)
    }

    /** The initial state: login mode, empty fields, no error, not loading. */
    constructor (storage: LocalStorage)
      ensures this.storage == storage
      ensures State() == Fields(true, "", "", "", "", false, false)
    {
      this.storage := storage;
      isLogin, username, password, confirmPassword := true, "", "", "";
      error, loading, openSnackbar := "", false, false;
    }

    /**
     * `handleSubmit`.  `loginReply` / `registerReply` is the server's answer to
     * whichever request is sent; `signedIn` is the argument `onLogin` is called
     * with, if it is called.
     */
    method HandleSubmit(loginReply: Outcome<LoginReply>, registerReply: Outcome<string>)
      returns (request: Request, signedIn: Option<string>)
      modifies this, storage
      ensures var refused := Validate(old(isLogin), old(username), old(password), old(confirmPassword));
        refused.Some? ==>
          && request == NoRequest && signedIn == None
          && State() == old(State()).(error := refused.value)
          && storage.items == old(storage.items)
      ensures var refused := Validate(old(isLogin), old(username), old(password), old(confirmPassword));
        refused.None? && old(isLogin) ==>
          && request == LoginRequest(Credentials(old(username), old(password)))
          && match loginReply
             case Resolved(reply) =>
               && signedIn == Some(old(username))
               && State() == old(State()).(error := "", loading := false)
               && storage.items == old(storage.items)[TokenKey := reply.token]
             case Rejected(_) =>
               && signedIn == None
               && State() == old(State()).(error := InvalidCredentials, loading := false)
               && storage.items == old(storage.items)
      ensures var refused := Validate(old(isLogin), old(username), old(password), old(confirmPassword));
        refused.None? && !old(isLogin) ==>
          && request == RegisterRequest(Credentials(old(username), old(password)))
          && signedIn == None
          && storage.items == old(storage.items)
          && match registerReply
             case Resolved(_) =>
               State() == old(State()).(error := "", loading := false, openSnackbar := true, isLogin := true)
             case Rejected(_) =>
               State() == old(State()).(error := RegistrationFailed, loading := false)
    {
      signedIn := None;
      var refused := Validate(isLogin, username, password, confirmPassword);
      if refused.Some? {
        error := refused.value;
        request := NoRequest;
        return;
      }
      loading := true;
      error := "";
      var credentials := Credentials(username, password);
      if isLogin {
        request := LoginRequest(credentials);
        var r := Login(storage, loginReply);
        if r.Resolved? {
          signedIn := Some(username);
        } else {
          error := InvalidCredentials;
        }
      } else {
        request := RegisterRequest(credentials);
        if registerReply.Resolved? {
          openSnackbar := true;
          isLogin := true;
        } else {
          error := RegistrationFailed;
        }
      }
      loading := false;
    }
  }
}
