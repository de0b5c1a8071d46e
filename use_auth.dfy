/** The stand-alone session hook (`src/hooks/useAuth.js`): its own `user`, `loading` and `error`
    state over the same `localStorage` token, and the default `Authorization` header of the global
    `axios` object. Every request-making operation clears `error` and sets `loading` when it starts
    and clears `loading` when it ends; a failure sets `error` and rethrows the request's error. */
module UseAuth {
  import opened Js
  import opened Http
  import opened Browser

  const GenericErrorText := "An error occurred"
  const FetchFailedText := "Failed to fetch user data"
  const NoTokenText := "No token found, please login again."

  /** Everything the hook's operations read or write. */
  datatype HookState = HookState(storage: map<string, string>, header: Option<string>, user: Value,
                                 loading: bool, error: Option<string>)

  /** The end of a request-making operation that failed with `err`: `loading` is off and `error` holds
      the server's message or `fallback`; the error is rethrown. */
  function Failed<T>(s: HookState, err: JsError, fallback: string): (r: (HookState, Completion<T>))
    ensures r.0 == s.(loading := false, error := Some(ErrorText(err, fallback)))
    ensures r.1 == Threw(err)
  {
    (s.(loading := false, error := Some(ErrorText(err, fallback))), Threw(err))
  }

  /** `login(email, password)`. */
  function LoginStep(s: HookState, reply: Reply<Record>): (r: (HookState, Completion<Record>))
    ensures !r.0.loading
    ensures r.1.Returned? <==> reply.Ok?
    ensures r.0.error.None? <==> reply.Ok?
    ensures reply.Ok? ==> "token" in r.0.storage && r.0.header == Some(Bearer(r.0.storage["token"]))
    ensures reply.Fail? ==> r.0.storage == s.storage && r.0.header == s.header && r.0.user == s.user
  {
    match reply
    case Ok(data) =>
      var token := ToStr(Get(data, "token"));
      (s.(storage := s.storage["token" := token], header := Some(Bearer(token)), user := Get(data, "user"),
          loading := false, error := None), Returned(data))
    case Fail(f) => Failed(s, HttpError(f), GenericErrorText)
  }

  /** `fetchUser()`: without a truthy stored token it throws before any request; with one it sets the
      header and asks for the user. */
  function FetchUserStep(s: HookState, reply: Reply<Value>): (r: (HookState, Completion<Value>))
    ensures !r.0.loading && r.0.storage == s.storage
    ensures r.1.Returned? <==> StoredToken(s.storage).Some? && reply.Ok?
    ensures r.0.error.None? <==> r.1.Returned?
    ensures StoredToken(s.storage).None? ==>
              r.0.header == s.header && r.0.user == s.user && r.0.error == Some(FetchFailedText)
              && r.1 == Threw(LocalError(NoTokenText))
    ensures StoredToken(s.storage).Some? ==> r.0.header == Some(Bearer(StoredToken(s.storage).value))
  {
    match StoredToken(s.storage)
    case None => Failed(s, LocalError(NoTokenText), FetchFailedText)
    case Some(token) =>
      var withHeader := s.(header := Some(Bearer(token)));
      match reply
      case Ok(data) => (withHeader.(user := data, loading := false, error := None), Returned(data))
      case Fail(f) => Failed(withHeader, HttpError(f), FetchFailedText)
  }

  /** `forgotPassword(email)` and `resetPassword(token, password)`: a request whose reply is only
      passed back. */
  function RequestStep(s: HookState, reply: Reply<Value>): (r: (HookState, Completion<Value>))
    ensures !r.0.loading && r.0.storage == s.storage && r.0.header == s.header && r.0.user == s.user
    ensures r.1.Returned? <==> reply.Ok?
    ensures r.0.error.None? <==> reply.Ok?
  {
    match reply
    case Ok(data) => (s.(loading := false, error := None), Returned(data))
    case Fail(f) => Failed(s, HttpError(f), GenericErrorText)
  }

  /** `logout()`: the token, the header and the user are cleared; there is no navigation. */
  function LogoutStep(s: HookState): (r: HookState)
    ensures "token" !in r.storage && r.header == None && r.user == Null
    ensures r.loading == s.loading && r.error == s.error
    ensures r.storage.Keys == s.storage.Keys - {"token"}
    ensures forall k :: k in r.storage ==> r.storage[k] == s.storage[k]
  {
    s.(storage := s.storage - {"token"}, header := None, user := Null)
  }

  /** A successful login stores the token, sets the header to carry it, sets the user and hands
      the reply back. A failed one leaves the token, the header and the user as they were, sets
      `error` to the server's message or "An error occurred", and rethrows. */
  lemma LoginOutcome(s: HookState, reply: Reply<Record>)
    ensures var (r, c) := LoginStep(s, reply);
            && (reply.Ok? ==> var token := ToStr(Get(reply.data, "token"));
                              && r.storage == s.storage["token" := token] && r.header == Some(Bearer(token))
                              && r.user == Get(reply.data, "user") && c == Returned(reply.data))
            && (reply.Fail? ==> && r.storage == s.storage && r.header == s.header && r.user == s.user
                                && r.error == Some(FailureText(reply.failure, GenericErrorText))
                                && c == Threw(HttpError(reply.failure)))
  {
  }

  /** Without a token `fetchUser` sends nothing and changes no session data. It throws its own
      "No token found" error, but `error` shows "Failed to fetch user data", since that error has no
      server response. */
  lemma FetchUserWithoutToken(s: HookState, reply: Reply<Value>)
    requires StoredToken(s.storage).None?
    ensures var (r, c) := FetchUserStep(s, reply);
            && r.storage == s.storage && r.header == s.header && r.user == s.user
            && c == Threw(LocalError(NoTokenText)) && r.error == Some(FetchFailedText)
  {
  }

  /** With a token, `fetchUser` sets the header to carry it whatever the reply, and a successful reply
      becomes the user. */
  lemma FetchUserWithToken(s: HookState, reply: Reply<Value>)
    requires StoredToken(s.storage).Some?
    ensures var (r, c) := FetchUserStep(s, reply);
            && r.header == Some(Bearer(s.storage["token"])) && r.storage == s.storage
            && (reply.Ok? ==> r.user == reply.data && c == Returned(reply.data))
            && (reply.Fail? ==> r.user == s.user)
  {
  }

  /** The password requests never touch the session: the stored token, the header and the user. */
  lemma PasswordRequestsKeepSession(s: HookState, reply: Reply<Value>)
    ensures var r := RequestStep(s, reply).0;
            r.storage == s.storage && r.header == s.header && r.user == s.user
  {
  }

  /** A hook operation that makes a request. */
  datatype Call = LoginCall(loginReply: Reply<Record>) | FetchUserCall(userReply: Reply<Value>) | RequestCall(reply: Reply<Value>)

  /** The state after a call, and whether it returned. */
  function Perform(s: HookState, call: Call): (HookState, bool) {
    match call
    case LoginCall(reply) => var (r, c) := LoginStep(s, reply); (r, c.Returned?)
    case FetchUserCall(reply) => var (r, c) := FetchUserStep(s, reply); (r, c.Returned?)
    case RequestCall(reply) => var (r, c) := RequestStep(s, reply); (r, c.Returned?)
  }

  /** Every request-making call ends with `loading` off, and `error` is empty exactly when the call
      returned: the error of an earlier call never survives a later success. */
  lemma CallBookkeeping(s: HookState, call: Call)
    ensures var (r, returned) := Perform(s, call);
            !r.loading && (r.error.None? <==> returned)
  {
  }

  /** Every operation keeps the global header in step with the stored token. */
  lemma CallsKeepHeaderInStep(s: HookState, call: Call)
    requires HeaderInStep(s.storage, s.header)
    ensures var r := Perform(s, call).0; HeaderInStep(r.storage, r.header)
    ensures HeaderInStep(LogoutStep(s).storage, LogoutStep(s).header)
  {
    match call
    case LoginCall(reply) =>
      var r := Perform(s, call).0;
      if reply.Ok? {
        assert "token" in r.storage && r.header == Some(Bearer(r.storage["token"]));
      }
    case FetchUserCall(reply) =>
    case RequestCall(reply) =>
  }

  /** Logging out twice is the same as logging out once. */
  lemma LogoutIdempotent(s: HookState)
    ensures LogoutStep(LogoutStep(s)) == LogoutStep(s)
  {
    assert LogoutStep(s).storage - {"token"} == LogoutStep(s).storage;
  }

  /** The hook's own state, over the shared browser state. */
  class AuthHook {
    const env: Env
    var user: Value
    var loading: bool
    var error: Option<string>

    function State(): HookState
      reads this, env
    {
      HookState(env.storage, env.axiosHeader, user, loading, error)
    }

    constructor (env: Env)
      ensures this.env == env && user == Null && !loading && error == None
    {
      this.env := env;
      user := Null;
      loading := false;
      error := None;
    }

    /** Sets `loading` and clears `error`, as every request-making operation first does. */
    method Start()
      modifies this
      ensures loading && error == None && user == old(user)
    {
      loading := true;
      error := None;
    }

    /** Records a failure and ends loading; the caller rethrows. */
    method Fail(err: JsError, fallback: string)
      modifies this
      ensures !loading && error == Some(ErrorText(err, fallback)) && user == old(user)
    {
      error := Some(ErrorText(err, fallback));
      loading := false;
    }

    method Login(reply: Reply<Record>) returns (completion: Completion<Record>)
      modifies this, env
      ensures (State(), completion) == LoginStep(old(State()), reply)
      ensures env.apiHeader == old(env.apiHeader)
    {
      Start();
      match reply {
        case Ok(data) =>
          var token := ToStr(Get(data, "token"));
          env.storage := env.storage["token" := token];
          env.axiosHeader := Some("Bearer " + token);
          user := Get(data, "user");
          completion := Returned(data);
          loading := false;
        case Fail(f) =>
          Fail(HttpError(f), GenericErrorText);
          completion := Threw(HttpError(f));
      }
    }

    method FetchUser(reply: Reply<Value>) returns (completion: Completion<Value>)
      modifies this, env
      ensures (State(), completion) == FetchUserStep(old(State()), reply)
      ensures env.apiHeader == old(env.apiHeader)
    {
      Start();
      if !("token" in env.storage && env.storage["token"] != "") {
        Fail(LocalError(NoTokenText), FetchFailedText);
        return Threw(LocalError(NoTokenText));
      }
      env.axiosHeader := Some("Bearer " + env.storage["token"]);
      match reply {
        case Ok(data) =>
          user := data;
          completion := Returned(data);
          loading := false;
        case Fail(f) =>
          Fail(HttpError(f), FetchFailedText);
          completion := Threw(HttpError(f));
      }
    }

    /** `forgotPassword(email)`; the address only goes into the request body. */
    method ForgotPassword(reply: Reply<Value>) returns (completion: Completion<Value>)
      modifies this
      ensures (State(), completion) == RequestStep(old(State()), reply)
    {
      completion := PasswordRequest(reply);
    }

    /** `resetPassword(token, password)`; both only go into the request body. */
    method ResetPassword(reply: Reply<Value>) returns (completion: Completion<Value>)
      modifies this
      ensures (State(), completion) == RequestStep(old(State()), reply)
    {
      completion := PasswordRequest(reply);
    }

    method PasswordRequest(reply: Reply<Value>) returns (completion: Completion<Value>)
      modifies this
      ensures (State(), completion) == RequestStep(old(State()), reply)
    {
      Start();
      match reply {
        case Ok(data) =>
          completion := Returned(data);
          loading := false;
        case Fail(f) =>
          Fail(HttpError(f), GenericErrorText);
          completion := Threw(HttpError(f));
      }
    }

    method Logout()
      modifies this, env
      ensures State() == LogoutStep(old(State()))
      ensures env.apiHeader == old(env.apiHeader)
    {
      env.storage := env.storage - {"token"};
      env.axiosHeader := None;
      user := Null;
    }
  }
}
