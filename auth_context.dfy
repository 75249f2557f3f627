/** The session state every screen reads: who is signed in, whether they are authenticated,
    and whether the session is still being resolved. One record, replaced step by step by the
    initial session check, the auth provider's events, and the login, register, logout and
    update operations. */
module AuthContext {
  import opened Common
  import opened Types

  const LoginFailed := "Login failed"
  const RegistrationFailed := "Registration failed"
  const Unexpected := "An unexpected error occurred"
  const ConfirmEmail := "Please check your email to confirm your account"

  datatype AuthState = AuthState(user: Option<User>, isAuthenticated: bool, loading: bool)

  /** The state before anything is known: nobody, and still resolving. */
  const Initial := AuthState(None, false, true)

  /** The state after a sign-out, or after the user's data could not be loaded. */
  const SignedOutState := AuthState(None, false, false)

  /** The user the auth provider reports: its id, email and creation time, and whether the
      email has been confirmed. */
  datatype SessionUser = SessionUser(id: string, email: string, createdAt: string, emailConfirmed: bool)

  /** The answer to the user's filters query: the row, no row (the query may also have
      failed, with any error code: the code is only logged), or the call threw. */
  datatype FiltersReply = FiltersRow(filters: UserFilters) | NoFiltersRow | FiltersThrew

  /** The answer of the auth provider to a sign-in or a sign-up: an error with its message,
      data with or without a user, or the call threw. */
  datatype ProviderReply = ProviderError(message: string) | ProviderData(user: Option<SessionUser>) | ProviderThrew

  /** An event of the auth state listener. */
  datatype AuthEvent = SignedIn | SignedOut | OtherEvent(name: string)

  /** What `login` and `register` resolve to: `{ success, error? }`. */
  datatype AuthResult = AuthResult(success: bool, error: Option<string>)

  /** The record built from the provider's user and its filters row. */
  function UserOf(u: SessionUser, filters: Option<UserFilters>): (user: User)
    ensures user.id == u.id && user.email == u.email && user.createdAt == u.createdAt
    ensures user.hasCompletedSegmentation <==> filters.Some?
    ensures user.filters == filters
  {
    User(u.id, u.email, filters.Some?, filters, u.createdAt)
  }

  /** The state `loadUserData` leaves: the user, authenticated, with the segmentation flag
      set exactly when a filters row came back; signed out when the load threw. */
  function LoadedState(u: SessionUser, reply: FiltersReply): (s: AuthState)
    ensures reply.FiltersThrew? <==> s == SignedOutState
    ensures !reply.FiltersThrew? ==> s.isAuthenticated && !s.loading && s.user.Some?
    ensures !reply.FiltersThrew? ==> s.user.value.id == u.id && s.user.value.email == u.email
    ensures !reply.FiltersThrew? ==> (s.user.value.hasCompletedSegmentation <==> reply.FiltersRow?)
  {
    match reply
    case FiltersThrew => SignedOutState
    case NoFiltersRow => AuthState(Some(UserOf(u, None)), true, false)
    case FiltersRow(f) => AuthState(Some(UserOf(u, Some(f))), true, false)
  }

  /** The state the listener leaves after an event: a sign-in with a user loads that user, a
      sign-out clears everything, and any other event changes nothing. */
  function AfterEvent(s: AuthState, event: AuthEvent, session: Option<SessionUser>, reply: FiltersReply): (r: AuthState)
    ensures event.SignedIn? && session.Some? ==> r == LoadedState(session.value, reply)
    ensures event.SignedOut? ==> r == SignedOutState
    ensures event.OtherEvent? || (event.SignedIn? && session.None?) ==> r == s
  {
    if event.SignedIn? && session.Some? then LoadedState(session.value, reply)
    else if event.SignedOut? then SignedOutState
    else s
  }

  /** An authenticated state always has a user. */
  predicate Consistent(s: AuthState) {
    s.isAuthenticated ==> s.user.Some?
  }

  /** Every state the listener can leave is consistent when the one before it was, and a
      sign-out after anything ends signed out. */
  lemma AfterEventKeepsConsistent(s: AuthState, event: AuthEvent, session: Option<SessionUser>, reply: FiltersReply)
    requires Consistent(s)
    ensures Consistent(AfterEvent(s, event, session, reply))
    ensures !AfterEvent(s, SignedOut, session, reply).isAuthenticated
  {
  }

  /** A sign-in followed by a sign-out leaves the same state as a sign-out alone. */
  lemma SignOutForgetsSignIn(s: AuthState, u: SessionUser, reply: FiltersReply, later: Option<SessionUser>)
    ensures AfterEvent(AfterEvent(s, SignedIn, Some(u), reply), SignedOut, later, reply)
         == AfterEvent(s, SignedOut, later, reply)
  {
  }

  /** What `login` resolves to for each answer of the provider. */
  function LoginResult(reply: ProviderReply): (r: AuthResult)
    ensures r.success <==> reply.ProviderData? && reply.user.Some?
    ensures r.success ==> r.error.None?
    ensures reply.ProviderError? ==> r.error == Some(reply.message)
    ensures reply.ProviderData? && reply.user.None? ==> r.error == Some(LoginFailed)
    ensures reply.ProviderThrew? ==> r.error == Some(Unexpected)
  {
    match reply
    case ProviderError(message) => AuthResult(false, Some(message))
    case ProviderData(user) => if user.Some? then AuthResult(true, None) else AuthResult(false, Some(LoginFailed))
    case ProviderThrew => AuthResult(false, Some(Unexpected))
  }

  /** What `register` resolves to: a user with a confirmed email is plain success, one with
      an email still to confirm is success carrying the confirmation notice. */
  function RegisterResult(reply: ProviderReply): (r: AuthResult)
    ensures r.success <==> reply.ProviderData? && reply.user.Some?
    ensures r.success ==> (r.error.Some? <==> !reply.user.value.emailConfirmed)
    ensures r.success && r.error.Some? ==> r.error.value == ConfirmEmail
    ensures reply.ProviderError? ==> r.error == Some(reply.message)
    ensures reply.ProviderData? && reply.user.None? ==> r.error == Some(RegistrationFailed)
    ensures reply.ProviderThrew? ==> r.error == Some(Unexpected)
  {
    match reply
    case ProviderError(message) => AuthResult(false, Some(message))
    case ProviderData(user) =>
      if user.None? then AuthResult(false, Some(RegistrationFailed))
      else if user.value.emailConfirmed then AuthResult(true, None)
      else AuthResult(true, Some(ConfirmEmail))
    case ProviderThrew => AuthResult(false, Some(Unexpected))
  }

  class AuthProvider {
    var authState: AuthState

    constructor ()
      ensures authState == Initial && Consistent(authState)
    {
      authState := Initial;
    }

    /** `loadUserData`: the filters query for the user, then the loaded state. */
    method LoadUserData(u: SessionUser, reply: FiltersReply)
      modifies this
      ensures authState == LoadedState(u, reply)
      ensures Consistent(authState)
    {
      authState := LoadedState(u, reply);
    }

    /** `getInitialSession`: with a session user its data is loaded; with no session, or when
        the session check threw (`sessionThrew`), only the spinner goes off. */
    method InitialSession(session: Option<SessionUser>, sessionThrew: bool, reply: FiltersReply)
      modifies this
      ensures !sessionThrew && session.Some? ==> authState == LoadedState(session.value, reply)
      ensures sessionThrew || session.None? ==> authState == old(authState).(loading := false)
      ensures !authState.loading
    {
      if !sessionThrew && session.Some? {
        LoadUserData(session.value, reply);
      } else {
        authState := authState.(loading := false);
      }
    }

    /** The auth state listener, for one event. */
    method OnAuthStateChange(event: AuthEvent, session: Option<SessionUser>, reply: FiltersReply)
      modifies this
      ensures authState == AfterEvent(old(authState), event, session, reply)
    {
      if event == SignedIn && session.Some? {
        LoadUserData(session.value, reply);
      } else if event == SignedOut {
        authState := AuthState(None, false, false);
      }
    }

    /** `login`: the spinner goes on; it goes off again on every outcome except a returned
        user, whose data the listener then loads. The user is not touched. */
    method Login(reply: ProviderReply) returns (result: AuthResult)
      modifies this
      ensures result == LoginResult(reply)
      ensures authState.user == old(authState.user) && authState.isAuthenticated == old(authState.isAuthenticated)
      ensures authState.loading <==> result.success
    {
      authState := authState.(loading := true);
      match reply {
        case ProviderError(message) =>
          authState := authState.(loading := false);
          return AuthResult(false, Some(message));
        case ProviderThrew =>
          authState := authState.(loading := false);
          return AuthResult(false, Some(Unexpected));
        case ProviderData(user) =>
          if user.Some? {
            return AuthResult(true, None);
          }
          authState := authState.(loading := false);
          return AuthResult(false, Some(LoginFailed));
      }
    }

    /** `register`: like `login`, except that a user whose email is still unconfirmed also
        turns the spinner off, since no sign-in event will follow. */
    method Register(reply: ProviderReply) returns (result: AuthResult)
      modifies this
      ensures result == RegisterResult(reply)
      ensures authState.user == old(authState.user) && authState.isAuthenticated == old(authState.isAuthenticated)
      ensures authState.loading <==> result.success && result.error.None?
    {
      authState := authState.(loading := true);
      match reply {
        case ProviderError(message) =>
          authState := authState.(loading := false);
          return AuthResult(false, Some(message));
        case ProviderThrew =>
          authState := authState.(loading := false);
          return AuthResult(false, Some(Unexpected));
        case ProviderData(user) =>
          if user.Some? {
            if user.value.emailConfirmed {
              return AuthResult(true, None);
            }
            authState := authState.(loading := false);
            return AuthResult(true, Some(ConfirmEmail));
          }
          authState := authState.(loading := false);
          return AuthResult(false, Some(RegistrationFailed));
      }
    }

    /** `logout`: asks the provider to sign out and leaves the state to the `SIGNED_OUT`
        event of the listener. */
    method Logout()
      modifies this
      ensures authState == old(authState)
    {
    }

    /** `updateUser`: the user is replaced; authentication and the spinner are kept. */
    method UpdateUser(user: User)
      modifies this
      ensures authState == old(authState).(user := Some(user))
      ensures Consistent(authState)
    {
      authState := authState.(user := Some(user));
    }
  }
}
