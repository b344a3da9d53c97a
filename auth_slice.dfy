/** The `auth` slice of the Redux store: the signed-in user's identity and
    the login request's loading/error flags. */
module AuthSlice {
  import opened Js
  import opened Types

  const LoginFailedMessage := "Something went wrong please try again later"

  /** What `login` fulfils with: the nine identity fields. */
  datatype LoginPayload = LoginPayload(
    token: string,
    refreshToken: string,
    userId: int,
    username: string,
    role: string,
    customerName: string,
    customerEmail: string,
    customerPhone: string,
    customerGender: string)

  /** The body of the `login` thunk. The request's outcome and whether
      persisting the token succeeded are given; reading a field of a `null`
      `customerResponse` throws, and so does a failed save, and neither
      thrown value carries a server response. */
  function Login(response: Outcome<LoginData>, tokenSaved: bool): (r: ThunkResult<LoginPayload>)
    ensures r.Fulfilled? <==> response.Returned? && tokenSaved && response.value.customerResponse.Some?
    ensures r.Fulfilled? ==>
              var d := response.value;
              var c := d.customerResponse.value;
              r.payload == LoginPayload(d.token, d.refreshToken, d.id, d.username, d.role,
                                        c.customerName, c.customerEmail, c.customerPhone, c.customerGender)
    ensures r.Rejected? ==> r.reason != ""
    ensures r.Rejected? && response.Threw? && Truthy(response.error.responseMessage) ==>
              r.reason == response.error.responseMessage.value
    ensures r.Rejected? && response.Threw? && !Truthy(response.error.responseMessage) ==>
              r.reason == LoginFailedMessage
    ensures r.Rejected? && response.Returned? ==> r.reason == LoginFailedMessage
  {
    match response
    case Threw(e) => Rejected(OrElse(e.responseMessage, LoginFailedMessage))
    case Returned(d) =>
      if !tokenSaved then Rejected(LoginFailedMessage)
      else match d.customerResponse
        case None => Rejected(LoginFailedMessage)
        case Some(c) =>
          Fulfilled(LoginPayload(d.token, d.refreshToken, d.id, d.username, d.role,
                                 c.customerName, c.customerEmail, c.customerPhone, c.customerGender))
  }

  /** The request helper throws a plain `Error` carrying the server's text
      as its `message` and no `response`, so such a failure always rejects
      with the fixed message, whatever the server said. */
  lemma PlainErrorRejectsWithFallback(serverText: Option<string>, tokenSaved: bool)
    ensures Login(Threw(Thrown(serverText, None)), tokenSaved) == Rejected(LoginFailedMessage)
  {
  }

  datatype AuthState = AuthState(
    token: Option<string>,
    refreshToken: Option<string>,
    userId: Option<int>,
    username: Option<string>,
    role: Option<string>,
    customerName: Option<string>,
    customerEmail: Option<string>,
    customerPhone: Option<string>,
    customerGender: Option<string>,
    isAuthenticated: bool,
    loading: bool,
    error: Option<string>)

  const InitialState := AuthState(None, None, None, None, None, None, None, None, None, false, false, None)

  /** The slice's actions. `LoginRejected` carries the rejection payload, which
      may be absent; `CheckAuthStatusFulfilled` carries the stored token. */
  datatype AuthAction =
    | ClearError
    | LoginPending
    | LoginFulfilled(payload: LoginPayload)
    | LoginRejected(reason: Option<string>)
    | LogoutFulfilled
    | CheckAuthStatusFulfilled(storedToken: Option<string>)

  /** An authenticated state holds a token, and a login in flight shows no
      error. */
  predicate Consistent(s: AuthState) {
    && (s.isAuthenticated ==> s.token.Some?)
    && (s.loading ==> s.error.None?)
  }

  /** The nine identity fields and the flag are all cleared. */
  predicate SignedOut(s: AuthState) {
    && s.token.None? && s.refreshToken.None? && s.userId.None? && s.username.None?
    && s.role.None? && s.customerName.None? && s.customerEmail.None?
    && s.customerPhone.None? && s.customerGender.None? && !s.isAuthenticated
  }

  /** The slice reducer. */
  function Reduce(s: AuthState, a: AuthAction): (r: AuthState)
    ensures Consistent(s) ==> Consistent(r)
    ensures r.token != s.token ==> a.LoginFulfilled? || a.LogoutFulfilled? || a.CheckAuthStatusFulfilled?
    ensures r.isAuthenticated && !s.isAuthenticated ==> a.LoginFulfilled? || a.CheckAuthStatusFulfilled?
  {
    match a
    case ClearError => s.(error := None)
    case LoginPending => s.(loading := true, error := None)
    case LoginFulfilled(p) =>
      s.(loading := false, token := Some(p.token), refreshToken := Some(p.refreshToken),
         userId := Some(p.userId), username := Some(p.username), role := Some(p.role),
         customerName := Some(p.customerName), customerEmail := Some(p.customerEmail),
         customerPhone := Some(p.customerPhone), customerGender := Some(p.customerGender),
         isAuthenticated := true, error := None)
    case LoginRejected(reason) => s.(loading := false, error := Some(OrElse(reason, LoginFailedMessage)))
    case LogoutFulfilled =>
      s.(token := None, refreshToken := None, userId := None, username := None, role := None,
         customerName := None, customerEmail := None, customerPhone := None,
         customerGender := None, isAuthenticated := false)
    case CheckAuthStatusFulfilled(stored) =>
      if Truthy(stored) then s.(token := stored, isAuthenticated := true) else s
  }

  /** The state after dispatching `actions` in order. */
  function ReduceAll(s: AuthState, actions: seq<AuthAction>): AuthState
    decreases |actions|
  {
    if actions == [] then s else ReduceAll(Reduce(s, actions[0]), actions[1..])
  }

  lemma {:induction false} ReduceAllConsistent(s: AuthState, actions: seq<AuthAction>)
    requires Consistent(s)
    ensures Consistent(ReduceAll(s, actions))
    decreases |actions|
  {
    if actions != [] {
      ReduceAllConsistent(Reduce(s, actions[0]), actions[1..]);
    }
  }

  /** Starting from the initial state, an authenticated state always holds a
      token. */
  lemma ReachableStatesConsistent(actions: seq<AuthAction>)
    ensures Consistent(ReduceAll(InitialState, actions))
  {
    ReduceAllConsistent(InitialState, actions);
  }

  /** `login.pending` raises `loading` and clears `error`, nothing else. */
  lemma LoginPendingEffect(s: AuthState)
    ensures Reduce(s, LoginPending) == s.(loading := true, error := None)
  {
  }

  /** `login.fulfilled` authenticates with the payload's nine identity
      fields and clears `loading` and `error`. */
  lemma LoginFulfilledEffect(s: AuthState, p: LoginPayload)
    ensures Reduce(s, LoginFulfilled(p)) ==
              AuthState(Some(p.token), Some(p.refreshToken), Some(p.userId), Some(p.username), Some(p.role),
                        Some(p.customerName), Some(p.customerEmail), Some(p.customerPhone),
                        Some(p.customerGender), true, false, None)
  {
  }

  /** `login.rejected` records the payload, or the fixed message when the
      payload is falsy, and changes nothing but `loading` and `error`. */
  lemma LoginRejectedEffect(s: AuthState, reason: Option<string>)
    ensures Reduce(s, LoginRejected(reason)) == s.(loading := false, error := Some(OrElse(reason, LoginFailedMessage)))
    ensures Truthy(reason) ==> Reduce(s, LoginRejected(reason)).error == reason
    ensures !Truthy(reason) ==> Reduce(s, LoginRejected(reason)).error == Some(LoginFailedMessage)
  {
  }

  /** The login screen answers a shown error with `clearError`: after a
      rejection and that dispatch, no error is left and the identity is
      untouched. */
  lemma RejectionThenClearError(s: AuthState, reason: Option<string>)
    ensures Reduce(Reduce(s, LoginRejected(reason)), ClearError) == s.(loading := false, error := None)
  {
  }

  /** `logout.fulfilled` signs out and leaves `loading` and `error` alone. */
  lemma LogoutEffect(s: AuthState)
    ensures var r := Reduce(s, LogoutFulfilled);
            SignedOut(r) && r.loading == s.loading && r.error == s.error
  {
  }

  /** Restoring a stored session authenticates only with a truthy token and
      never signs out. */
  lemma CheckAuthStatusEffect(s: AuthState, stored: Option<string>)
    ensures var r := Reduce(s, CheckAuthStatusFulfilled(stored));
            && (Truthy(stored) ==> r == s.(token := stored, isAuthenticated := true))
            && (!Truthy(stored) ==> r == s)
            && (s.isAuthenticated ==> r.isAuthenticated)
  {
  }

  /** The store's `auth` state, updated in place by one method per case
      reducer. */
  class AuthStore {
    var token: Option<string>
    var refreshToken: Option<string>
    var userId: Option<int>
    var username: Option<string>
    var role: Option<string>
    var customerName: Option<string>
    var customerEmail: Option<string>
    var customerPhone: Option<string>
    var customerGender: Option<string>
    var isAuthenticated: bool
    var loading: bool
    var error: Option<string>

    ghost function State(): AuthState
      reads this
    {
      AuthState(token, refreshToken, userId, username, role, customerName, customerEmail,
                customerPhone, customerGender, isAuthenticated, loading, error)
    }

    constructor ()
      ensures State() == InitialState
    {
      token, refreshToken, userId, username, role := None, None, None, None, None;
      customerName, customerEmail, customerPhone, customerGender := None, None, None, None;
      isAuthenticated, loading, error := false, false, None;
    }

    method ClearError()
      modifies this`error
      ensures State() == Reduce(old(State()), AuthAction.ClearError)
    {
      error := None;
    }

    method LoginPending()
      modifies this`loading, this`error
      ensures State() == Reduce(old(State()), AuthAction.LoginPending)
    {
      loading := true;
      error := None;
    }

    /** Assigns the nine identity fields, which `login.fulfilled` fills from
        its payload and `logout.fulfilled` nulls. */
    method AssignIdentity(token: Option<string>, refreshToken: Option<string>, userId: Option<int>,
                          username: Option<string>, role: Option<string>, customerName: Option<string>,
                          customerEmail: Option<string>, customerPhone: Option<string>,
                          customerGender: Option<string>)
      modifies this`token, this`refreshToken, this`userId, this`username, this`role,
               this`customerName, this`customerEmail, this`customerPhone, this`customerGender
      ensures this.token == token && this.refreshToken == refreshToken && this.userId == userId
      ensures this.username == username && this.role == role && this.customerName == customerName
      ensures this.customerEmail == customerEmail && this.customerPhone == customerPhone
      ensures this.customerGender == customerGender
    {
      this.token := token;
      this.refreshToken := refreshToken;
      this.userId := userId;
      this.username := username;
      this.role := role;
      this.customerName := customerName;
      this.customerEmail := customerEmail;
      this.customerPhone := customerPhone;
      this.customerGender := customerGender;
    }

    method LoginFulfilled(payload: LoginPayload)
      modifies this
      ensures State() == Reduce(old(State()), AuthAction.LoginFulfilled(payload))
    {
      loading := false;
      AssignIdentity(Some(payload.token), Some(payload.refreshToken), Some(payload.userId),
                     Some(payload.username), Some(payload.role), Some(payload.customerName),
                     Some(payload.customerEmail), Some(payload.customerPhone), Some(payload.customerGender));
      isAuthenticated := true;
      error := None;
    }

    method LoginRejected(reason: Option<string>)
      modifies this`loading, this`error
      ensures State() == Reduce(old(State()), AuthAction.LoginRejected(reason))
    {
      loading := false;
      error := Some(OrElse(reason, LoginFailedMessage));
    }

    method LogoutFulfilled()
      modifies this`token, this`refreshToken, this`userId, this`username, this`role,
               this`customerName, this`customerEmail, this`customerPhone, this`customerGender,
               this`isAuthenticated
      ensures State() == Reduce(old(State()), AuthAction.LogoutFulfilled)
    {
      AssignIdentity(None, None, None, None, None, None, None, None, None);
      isAuthenticated := false;
    }

    method CheckAuthStatusFulfilled(storedToken: Option<string>)
      modifies this`token, this`isAuthenticated
      ensures State() == Reduce(old(State()), AuthAction.CheckAuthStatusFulfilled(storedToken))
    {
      if Truthy(storedToken) {
        token := storedToken;
        isAuthenticated := true;
      }
    }
  }
}
