/** The provider (`AuthContext`) and the hook (`UseAuth`) read and write the same `localStorage`
    `token`, but each keeps its own `Authorization` header in step with it. When both are in use,
    an operation of one moves the token under the other's header. */
module SharedSession {
  import opened Js
  import opened Http
  import opened Browser
  import AuthContext
  import UseAuth

  /** Two header values that carry tokens are equal only when the tokens are. */
  lemma BearerInjective(a: string, b: string)
    requires Bearer(a) == Bearer(b)
    ensures a == b
  {
    assert a == Bearer(a)[7..];
    assert b == Bearer(b)[7..];
  }

  /** A signed-in provider whose header is in step with the token is left out of step when the hook
      logs out: the hook removes the token, but the provider's header still carries it. */
  lemma HookLogoutDesyncsProvider(p: AuthContext.Session, h: UseAuth.HookState)
    requires AuthContext.Synced(p) && StoredToken(p.storage).Some? && h.storage == p.storage
    ensures !AuthContext.Synced(p.(storage := UseAuth.LogoutStep(h).storage))
  {
    assert p.header.Some?;
  }

  /** A signed-in provider is left out of step when the hook logs in with a different token: the hook
      stores the new token, but the provider's header still carries the old one. */
  lemma HookLoginDesyncsProvider(p: AuthContext.Session, h: UseAuth.HookState, reply: Reply<Record>)
    requires AuthContext.Synced(p) && StoredToken(p.storage).Some? && h.storage == p.storage
    requires reply.Ok? && ToStr(Get(reply.data, "token")) != p.storage["token"]
    ensures !AuthContext.Synced(p.(storage := UseAuth.LoginStep(h, reply).0.storage))
  {
    var token := ToStr(Get(reply.data, "token"));
    var after := UseAuth.LoginStep(h, reply).0.storage;
    assert after["token"] == token;
    if p.header.value == Bearer(token) {
      BearerInjective(p.storage["token"], token);
    }
  }

  /** The other way round: a signed-in hook whose header is in step with the token is left out of
      step when the provider logs out. */
  lemma ProviderLogoutDesyncsHook(p: AuthContext.Session, h: UseAuth.HookState)
    requires HeaderInStep(h.storage, h.header) && StoredToken(h.storage).Some? && p.storage == h.storage
    ensures !HeaderInStep(AuthContext.LogoutStep(p).storage, h.header)
  {
    assert h.header.Some?;
  }
}
