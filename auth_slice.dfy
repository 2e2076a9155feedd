/** The authentication Redux slice: the signed-in user, the token, a
    loading flag, the last error and whether the session counts as
    authenticated. The reducers assign fields in place; the login thunk
    turns the server's reply into a fulfilled or rejected action and
    refuses a reply that carries no token. */
module AuthSlice {
  import opened Common

  const LOGIN_FAILED: string := "Login failed"
  const REGISTRATION_FAILED: string := "Registration failed"

  /** `message || fallback` on a message that may be undefined: an absent
      or empty message gives the fallback. */
  function Or(message: Option<string>, fallback: string): (r: string)
    ensures message.Some? && message.value != "" ==> r == message.value
    ensures message.None? || message.value == "" ==> r == fallback
  {
    if message.Some? && message.value != "" then message.value else fallback
  }

  /** The body of a successful login reply; either field may be missing. */
  datatype LoginData = LoginData(user: Option<Json>, token: Option<string>)

  /** A call to the server: its reply body, or a failure with the server's
      `message` when there was a reply that carried one. */
  datatype Reply<D> = Answered(data: D) | Failed(message: Option<string>)

  /** The action a thunk dispatches when it settles. */
  datatype Settled<D> = Fulfilled(value: D) | Rejected(reason: string)

  /** `!token` is false: the token is present and not the empty string. */
  predicate HasToken(d: LoginData)
  {
    d.token.Some? && d.token.value != ""
  }

  /** The login thunk: a reply without a usable token is turned into an
      error, which has no server message, so every rejection carries either
      the server's message or "Login failed". */
  function LoginThunk(reply: Reply<LoginData>): (r: Settled<LoginData>)
    ensures r.Fulfilled? <==> reply.Answered? && HasToken(reply.data)
    ensures r.Fulfilled? ==> r.value == reply.data
    ensures r.Rejected? && reply.Answered? ==> r.reason == LOGIN_FAILED
    ensures r.Rejected? && reply.Failed? ==> r.reason == Or(reply.message, LOGIN_FAILED)
    ensures r.Rejected? ==> r.reason != ""
  {
    match reply
    case Answered(data) =>
      if HasToken(data) then Fulfilled(data) else Rejected(LOGIN_FAILED)
    case Failed(message) => Rejected(Or(message, LOGIN_FAILED))
  }

  /** The register thunk: any reply body is fulfilled, a failure carries the
      server's message or "Registration failed". */
  function RegisterThunk(reply: Reply<Json>): (r: Settled<Json>)
    ensures r.Fulfilled? <==> reply.Answered?
    ensures r.Fulfilled? ==> r.value == reply.data
    ensures r.Rejected? ==> r.reason == Or(reply.message, REGISTRATION_FAILED) && r.reason != ""
  {
    match reply
    case Answered(data) => Fulfilled(data)
    case Failed(message) => Rejected(Or(message, REGISTRATION_FAILED))
  }

  class AuthState {
    var user: Option<Json>
    var token: Option<string>
    var isLoading: bool
    var error: Option<string>
    var isAuthenticated: bool

    /** The session counts as authenticated exactly when a token is held. */
    predicate Consistent()
      reads this
    {
      isAuthenticated <==> token.Some?
    }

    /** The initial state from the token kept in the browser's storage
      (`stored`): `isAuthenticated` is `!!stored`, so a stored empty string
      gives a token but no session, and only then is the state
      inconsistent. */
    constructor (stored: Option<string>)
      ensures user.None? && token == stored && !isLoading && error.None?
      ensures isAuthenticated <==> stored.Some? && stored.value != ""
      ensures Consistent() <==> stored.None? || stored.value != ""
    {
      user := None;
      token := stored;
      isLoading := false;
      error := None;
      isAuthenticated := stored.Some? && stored.value != "";
    }

    /** logout: the session is cleared; the loading flag stays. */
    method Logout()
      modifies this
      ensures user.None? && token.None? && !isAuthenticated && error.None?
      ensures isLoading == old(isLoading)
      ensures Consistent()
    {
      user := None;
      token := None;
      isAuthenticated := false;
      error := None;
    }

    /** clearError: only the error changes. */
    method ClearError()
      modifies this
      ensures error.None?
      ensures user == old(user) && token == old(token) && isLoading == old(isLoading)
      ensures isAuthenticated == old(isAuthenticated)
      ensures old(Consistent()) ==> Consistent()
    {
      error := None;
    }

    /** login.pending and register.pending. */
    method Pending()
      modifies this
      ensures isLoading && error.None?
      ensures user == old(user) && token == old(token) && isAuthenticated == old(isAuthenticated)
      ensures old(Consistent()) ==> Consistent()
    {
      isLoading := true;
      error := None;
    }

    /** login.fulfilled: user and token come from the payload and the
      session counts as authenticated, so the state is consistent exactly
      when the payload had a token. */
    method LoginFulfilled(payload: LoginData)
      modifies this
      ensures user == payload.user && token == payload.token
      ensures isAuthenticated && !isLoading && error.None?
      ensures Consistent() <==> payload.token.Some?
    {
      isLoading := false;
      user := payload.user;
      token := payload.token;
      isAuthenticated := true;
      error := None;
    }

    /** login.rejected: the session is cleared and the error is the payload
      or "Login failed". */
    method LoginRejected(payload: Option<string>)
      modifies this
      ensures !isLoading && error == Some(Or(payload, LOGIN_FAILED))
      ensures !isAuthenticated && token.None? && user.None?
      ensures Consistent()
    {
      isLoading := false;
      error := Some(Or(payload, LOGIN_FAILED));
      isAuthenticated := false;
      token := None;
      user := None;
    }

    /** register.fulfilled: registering does not sign in. */
    method RegisterFulfilled()
      modifies this
      ensures !isLoading && error.None?
      ensures user == old(user) && token == old(token) && isAuthenticated == old(isAuthenticated)
      ensures old(Consistent()) ==> Consistent()
    {
      isLoading := false;
      error := None;
    }

    /** register.rejected: the error is the payload or "Registration
      failed"; the session is untouched. */
    method RegisterRejected(payload: Option<string>)
      modifies this
      ensures !isLoading && error == Some(Or(payload, REGISTRATION_FAILED))
      ensures user == old(user) && token == old(token) && isAuthenticated == old(isAuthenticated)
      ensures old(Consistent()) ==> Consistent()
    {
      isLoading := false;
      error := Some(Or(payload, REGISTRATION_FAILED));
    }

    /** A whole login: pending, then the action the thunk settles with.
      Whatever the state was before, the session afterwards is
      authenticated exactly when the reply held a token, and the state is
      consistent. */
    method Login(reply: Reply<LoginData>)
      modifies this
      ensures isAuthenticated <==> reply.Answered? && HasToken(reply.data)
      ensures isAuthenticated ==> token == reply.data.token && user == reply.data.user && error.None?
      ensures !isAuthenticated ==> token.None? && user.None? && error == Some(LoginThunk(reply).reason)
      ensures !isLoading
      ensures Consistent()
    {
      Pending();
      var settled := LoginThunk(reply);
      match settled
      case Fulfilled(data) => LoginFulfilled(data);
      case Rejected(reason) => LoginRejected(Some(reason));
    }

    /** A whole registration: pending, then the settled action. The session
      is never touched. */
    method Register(reply: Reply<Json>)
      modifies this
      ensures error == if reply.Answered? then None else Some(Or(reply.message, REGISTRATION_FAILED))
      ensures user == old(user) && token == old(token) && isAuthenticated == old(isAuthenticated)
      ensures !isLoading
      ensures old(Consistent()) ==> Consistent()
    {
      Pending();
      var settled := RegisterThunk(reply);
      match settled
      case Fulfilled(_) => RegisterFulfilled();
      case Rejected(reason) => RegisterRejected(Some(reason));
    }
  }
}
