/** The session provider (`src/contexts/AuthContext.jsx`): the signed-in `user`, the `loading` flag
    that holds back the page until the stored token has been checked, and the `login`/`logout`
    operations, which keep `localStorage`'s `token` and the shared client's `Authorization` header
    in step. Navigation is recorded as the last route requested. */
module AuthContext {
  import opened Js
  import opened Http
  import opened Browser

  const LoginFailedText := "Login failed"
  const OutsideProviderText := "useAuth must be used within an AuthProvider"

  /** Everything the provider's operations read or write: the storage, the `Authorization` header of
      the shared client, the provider's own state, and the last route navigated to. */
  datatype Session = Session(storage: map<string, string>, header: Option<string>, user: Value,
                             loading: bool, route: Option<string>)

  /** The storage is the same except possibly for the `token` key. */
  ghost predicate OtherKeysKept(before: map<string, string>, after: map<string, string>) {
    forall k :: k != "token" ==> (k in after <==> k in before) && (k in before ==> after[k] == before[k])
  }

  /** `logout`: the token and the header are gone, there is no user, and the login page is shown.
      Every other stored key stays. */
  function LogoutStep(s: Session): (r: Session)
    ensures "token" !in r.storage && r.header == None && r.user == Null && r.route == Some("/login")
    ensures OtherKeysKept(s.storage, r.storage)
    ensures r.loading == s.loading
  {
    s.(storage := s.storage - {"token"}, header := None, user := Null, route := Some("/login"))
  }

  /** `checkAuth`. Without a truthy stored token nothing is requested and only `loading` changes.
      With one, the header is set to `Bearer <token>` before the request; a successful reply becomes
      the user and a failed one logs out. `loading` ends false in every case. */
  function CheckAuthStep(s: Session, reply: Reply<Value>): (r: Session)
    ensures !r.loading
    ensures StoredToken(s.storage).None? ==> r == s.(loading := false)
    ensures StoredToken(s.storage).Some? && reply.Ok? ==>
              r == s.(header := Some(Bearer(StoredToken(s.storage).value)), user := reply.data, loading := false)
    ensures StoredToken(s.storage).Some? && reply.Fail? ==> r == LogoutStep(s).(loading := false)
  {
    match StoredToken(s.storage)
    case None => s.(loading := false)
    case Some(token) =>
      var withHeader := s.(header := Some(Bearer(token)));
      match reply
      case Ok(data) => withHeader.(user := data, loading := false)
      case Fail(_) => LogoutStep(withHeader).(loading := false)
  }

  /** `login`. On success the reply's token is stored (as `setItem` stores it, converted to a
      string), the header carries it, the reply's user is set and the home page is shown. On failure
      it throws a new error with the server's message or "Login failed", and nothing changes. */
  function LoginStep(s: Session, reply: Reply<Record>): (r: (Session, Completion<()>))
    ensures reply.Ok? ==>
              var token := ToStr(Get(reply.data, "token"));
              && r.1 == Returned(())
              && r.0.storage == s.storage["token" := token]
              && r.0.header == Some(Bearer(token))
              && r.0.user == Get(reply.data, "user")
              && r.0.route == Some("/") && r.0.loading == s.loading
    ensures reply.Fail? ==> r.0 == s && r.1 == Threw(LocalError(FailureText(reply.failure, LoginFailedText)))
  {
    match reply
    case Ok(data) =>
      var token := ToStr(Get(data, "token"));
      (s.(storage := s.storage["token" := token], header := Some(Bearer(token)),
          user := Get(data, "user"), route := Some("/")), Returned(()))
    case Fail(f) =>
      (s, Threw(LocalError(ErrorText(HttpError(f), LoginFailedText))))
  }

  /** Logging out twice is the same as logging out once. */
  lemma LogoutIdempotent(s: Session)
    ensures LogoutStep(LogoutStep(s)) == LogoutStep(s)
  {
    assert LogoutStep(s).storage - {"token"} == LogoutStep(s).storage;
  }

  /** The shared client's header agrees with the stored token. */
  predicate Synced(s: Session) {
    HeaderInStep(s.storage, s.header)
  }

  /** On page load the header is unset; the first `checkAuth` brings it in step with the storage. */
  lemma CheckAuthSyncs(s: Session, reply: Reply<Value>)
    requires s.header == None || Synced(s)
    ensures Synced(CheckAuthStep(s, reply))
  {
  }

  /** A provider event: a `checkAuth` or a `login` with the server's reply, or a `logout`. */
  datatype Event = CheckAuth(authReply: Reply<Value>) | Login(loginReply: Reply<Record>) | Logout

  function Apply(s: Session, e: Event): Session {
    match e
    case CheckAuth(reply) => CheckAuthStep(s, reply)
    case Login(reply) => LoginStep(s, reply).0
    case Logout => LogoutStep(s)
  }

  /** The session after a sequence of events, first to last. */
  function Run(s: Session, events: seq<Event>): Session
    decreases |events|
  {
    if events == [] then s else Run(Apply(s, events[0]), events[1..])
  }

  /** Each event keeps the header in step with the token. */
  lemma ApplyKeepsSynced(s: Session, e: Event)
    requires Synced(s)
    ensures Synced(Apply(s, e))
  {
    match e
    case CheckAuth(reply) =>
    case Login(reply) =>
      var r := LoginStep(s, reply).0;
      if reply.Ok? {
        assert "token" in r.storage && r.header == Some(Bearer(r.storage["token"]));
      }
    case Logout =>
  }

  /** Each event leaves every stored key other than `token` alone. */
  lemma ApplyKeepsOtherKeys(s: Session, e: Event)
    ensures OtherKeysKept(s.storage, Apply(s, e).storage)
  {
    match e
    case CheckAuth(reply) =>
    case Login(reply) =>
    case Logout =>
  }

  /** Any sequence of events keeps the header in step with the token and leaves every stored key
      other than `token` as it was. */
  lemma {:induction false} RunKeepsInvariants(s: Session, events: seq<Event>)
    requires Synced(s)
    ensures Synced(Run(s, events))
    ensures OtherKeysKept(s.storage, Run(s, events).storage)
    decreases |events|
  {
    if events != [] {
      var next := Apply(s, events[0]);
      ApplyKeepsSynced(s, events[0]);
      ApplyKeepsOtherKeys(s, events[0]);
      RunKeepsInvariants(next, events[1..]);
    }
  }

  /** The provider renders its children only once `loading` is false. */
  predicate RendersChildren(s: Session) {
    !s.loading
  }

  /** Once `checkAuth` has run the children are rendered, and no later event hides them again. */
  lemma {:induction false} ChildrenStayRendered(s: Session, reply: Reply<Value>, events: seq<Event>)
    ensures RendersChildren(Run(CheckAuthStep(s, reply), events))
    decreases |events|
  {
    if events != [] {
      var next := Apply(CheckAuthStep(s, reply), events[0]);
      assert !next.loading;
      StaysRendered(next, events[1..]);
    }
  }

  /** With `loading` false, no event sets it again. */
  lemma {:induction false} StaysRendered(s: Session, events: seq<Event>)
    requires !s.loading
    ensures RendersChildren(Run(s, events))
    decreases |events|
  {
    if events != [] {
      StaysRendered(Apply(s, events[0]), events[1..]);
    }
  }

  /** `useAuth`: the provider's value, or an error when there is no provider above. */
  function UseAuth(context: Option<Session>): (r: Completion<Session>)
    ensures r.Threw? <==> context.None?
    ensures context.None? ==> r.error == LocalError(OutsideProviderText)
    ensures context.Some? ==> r.value == context.value
  {
    if context.None? then Threw(LocalError(OutsideProviderText)) else Returned(context.value)
  }

  /** The provider component. Its `user` and `loading` live here; the token and the header live in
      the shared browser state. */
  class AuthProvider {
    const env: Env
    var user: Value
    var loading: bool
    var route: Option<string>

    /** The provider's session as the step functions see it. */
    function State(): Session
      reads this, env
    {
      Session(env.storage, env.apiHeader, user, loading, route)
    }

    constructor (env: Env)
      ensures this.env == env && user == Null && loading && route == None
    {
      this.env := env;
      user := Null;
      loading := true;
      route := None;
    }

    method CheckAuth(reply: Reply<Value>)
      modifies this, env
      ensures State() == CheckAuthStep(old(State()), reply)
      ensures env.axiosHeader == old(env.axiosHeader)
    {
      if "token" in env.storage && env.storage["token"] != "" {
        var token := env.storage["token"];
        env.apiHeader := Some("Bearer " + token);
        match reply {
          case Ok(data) =>
            user := data;
          case Fail(_) =>
            Logout();
        }
      }
      loading := false;
    }

    method Login(reply: Reply<Record>) returns (completion: Completion<()>)
      modifies this, env
      ensures (State(), completion) == LoginStep(old(State()), reply)
      ensures env.axiosHeader == old(env.axiosHeader)
    {
      match reply {
        case Ok(data) =>
          var token := ToStr(Get(data, "token"));
          env.storage := env.storage["token" := token];
          env.apiHeader := Some("Bearer " + token);
          user := Get(data, "user");
          route := Some("/");
          completion := Returned(());
        case Fail(f) =>
          completion := Threw(LocalError(ErrorText(HttpError(f), LoginFailedText)));
      }
    }

    method Logout()
      modifies this, env
      ensures State() == LogoutStep(old(State()))
      ensures env.axiosHeader == old(env.axiosHeader)
    {
      env.storage := env.storage - {"token"};
      env.apiHeader := None;
      user := Null;
      route := Some("/login");
    }
  }
}
