/** The client-side session manager of src/context/AuthContext.tsx.

    The provider owns three pieces of mutable state: the `authState` record
    that every page reads, the persisted token slot `localStorage['jwtToken']`
    and the default `Authorization` header of the HTTP client. Each operation
    is a method of `AuthProvider` that receives the server's answer as a
    parameter. Each method is specified by a pure step function on a
    `Session` value. The lemmas at the end prove facts about every session
    that a sequence of operations can reach. */
module AuthContext {
  import opened Wrappers

  /** The identity returned by `/auth/me` and by `/auth/login`. */
  datatype User = User(email: string, firstName: string, lastName: string, role: string)

  /** The `authState` record the provider exposes to the rest of the app. */
  datatype AuthState = AuthState(user: Option<User>, token: Option<string>, isAuthenticated: bool, isLoading: bool)

  /** The body of a successful `/auth/login` response. */
  datatype LoginResponse = LoginResponse(token: string, email: string, firstName: string, lastName: string, role: string)

  /** Everything the provider changes: the record, the stored token slot and
      the default `Authorization` header (None when the header is deleted). */
  datatype Session = Session(auth: AuthState, stored: Option<string>, header: Option<string>)

  /** An operation of the provider together with the server's answer to it. */
  datatype Event =
    | Initialize(verify: Reply<User>)
    | GetCurrentUser(verify: Reply<User>)
    | Login(email: string, password: string, answer: Reply<LoginResponse>)
    | Register(email: string, password: string, firstName: string, lastName: string, outcome: Reply<()>)
    | Logout

  /** JavaScript truthiness of a `string | null`: the empty string counts as absent. */
  predicate Truthy(t: Option<string>)
  {
    t.Some? && t.value != ""
  }

  /** A 401 or 403 answer, the only failures `getCurrentUser` treats as a rejected token. */
  predicate IsAuthError(f: Fault)
  {
    f.HttpStatus? && (f.code == 401 || f.code == 403)
  }

  /** The anonymous shape that `logout` writes. */
  function LoggedOut(): (a: AuthState)
    ensures a.user.None? && a.token.None? && !a.isAuthenticated && !a.isLoading
  {
    AuthState(None, None, false, false)
  }

  /** The value of the default `Authorization` header that the header effect
      installs for `token`: `Bearer <token>` when the token is truthy, and
      no header at all otherwise. */
  function HeaderFor(token: Option<string>): (h: Option<string>)
    ensures h.Some? <==> Truthy(token)
    ensures h.Some? ==> h.value == "Bearer " + token.value
  {
    if Truthy(token) then Some("Bearer " + token.value) else None
  }

  /** The state on first render: no user, the stored token copied into the
      record, not authenticated, and loading even when nothing is stored. */
  function InitialSession(storage: Option<string>): (s: Session)
    ensures s.auth.isLoading && !s.auth.isAuthenticated && s.auth.user.None?
    ensures s.auth.token == s.stored == storage
    ensures s.header == HeaderFor(storage)
  {
    Session(AuthState(None, storage, false, true), storage, HeaderFor(storage))
  }

  /** The object invariant every reachable session keeps. */
  predicate Inv(s: Session)
  {
    && (s.auth.isAuthenticated ==> s.auth.user.Some?)
    && (s.auth.isAuthenticated ==> !s.auth.isLoading)
    && s.auth.token == s.stored
    && s.header == HeaderFor(s.auth.token)
  }

  /** `logout`: clear the stored token and write the anonymous shape. */
  function LogoutStep(s: Session): (r: Session)
    ensures r.auth == LoggedOut() && r.stored.None? && r.header.None?
  {
    Session(LoggedOut(), None, HeaderFor(None))
  }

  /** The state changes of `getCurrentUser` once `/auth/me` has answered. */
  function VerifyStep(s: Session, verify: Reply<User>): (r: Session)
    ensures verify.Ok? ==> r.auth.user == Some(verify.body) && r.auth.isAuthenticated && !r.auth.isLoading
    ensures verify.Ok? ==> r.auth.token == s.auth.token && r.stored == s.stored && r.header == s.header
    ensures verify.Failed? && IsAuthError(verify.fault) ==> r == LogoutStep(s)
    ensures verify.Failed? && !IsAuthError(verify.fault) ==> r == s
  {
    match verify
    case Ok(u) => s.(auth := s.auth.(user := Some(u), isAuthenticated := true, isLoading := false))
    case Failed(f) => if IsAuthError(f) then LogoutStep(s) else s
  }

  /** `initializeAuth`: with a truthy stored token, copy it into the record,
      verify it, and log out if verification throws for any reason; with no
      token, only stop loading. */
  function InitializeStep(s: Session, verify: Reply<User>): (r: Session)
    ensures !r.auth.isLoading
    ensures Truthy(s.stored) && verify.Ok? ==>
      && r.auth.user == Some(verify.body) && r.auth.isAuthenticated
      && r.auth.token == s.stored && r.stored == s.stored && r.header == HeaderFor(s.stored)
    ensures Truthy(s.stored) && verify.Failed? ==> r == LogoutStep(s)
    ensures !Truthy(s.stored) ==> r.auth.user == s.auth.user && r.auth.isAuthenticated == s.auth.isAuthenticated
    ensures !Truthy(s.stored) ==> r.auth.token == s.auth.token && r.stored == s.stored && r.header == s.header
    ensures Inv(s) ==> Inv(r)
  {
    if Truthy(s.stored) then
      var withToken := s.(auth := s.auth.(token := s.stored), header := HeaderFor(s.stored));
      var verified := VerifyStep(withToken, verify);
      if verify.Ok? then verified else LogoutStep(verified)
    else
      s.(auth := s.auth.(isLoading := false))
  }

  /** The user record built from a login response. */
  function LoginUser(resp: LoginResponse): (u: User)
    ensures u.email == resp.email && u.firstName == resp.firstName
    ensures u.lastName == resp.lastName && u.role == resp.role
  {
    User(resp.email, resp.firstName, resp.lastName, resp.role)
  }

  /** `login`: on success persist the token and overwrite the record; on
      failure change nothing. */
  function LoginStep(s: Session, answer: Reply<LoginResponse>): (r: Session)
    ensures answer.Ok? ==> && r.auth.user == Some(LoginUser(answer.body))
                           && r.auth.isAuthenticated && !r.auth.isLoading
                           && r.auth.token == r.stored == Some(answer.body.token)
                           && r.header == HeaderFor(Some(answer.body.token))
    ensures answer.Failed? ==> r == s
    ensures answer.Ok? || Inv(s) ==> Inv(r)
  {
    match answer
    case Ok(resp) =>
      Session(AuthState(Some(LoginUser(resp)), Some(resp.token), true, false), Some(resp.token), HeaderFor(Some(resp.token)))
    case Failed(_) => s
  }

  /** The session after one event. `register` never changes the session. */
  function Step(s: Session, e: Event): Session
  {
    match e
    case Initialize(verify) => InitializeStep(s, verify)
    case GetCurrentUser(verify) => VerifyStep(s, verify)
    case Login(_, _, answer) => LoginStep(s, answer)
    case Register(_, _, _, _, _) => s
    case Logout => LogoutStep(s)
  }

  /** The session after the events of `es`, in order. */
  function Run(s: Session, es: seq<Event>): Session
    decreases |es|
  {
    if es == [] then s else Run(Step(s, es[0]), es[1..])
  }

  // ---------------------------------------------------------------------
  // Properties of the step functions
  // ---------------------------------------------------------------------

  /** `logout` gives the same session whatever the state it starts from, so
      logging out twice is the same as logging out once. */
  lemma LogoutIsIdempotent(s: Session, t: Session)
    ensures LogoutStep(s) == LogoutStep(t)
    ensures LogoutStep(LogoutStep(s)) == LogoutStep(s)
    ensures Inv(LogoutStep(s))
  {
  }

  /** Initialization without a truthy stored token stops loading and stays
      anonymous; the record is otherwise the one of the first render. */
  lemma InitializeWithoutToken(storage: Option<string>, verify: Reply<User>)
    requires !Truthy(storage)
    ensures var r := InitializeStep(InitialSession(storage), verify);
      !r.auth.isLoading && !r.auth.isAuthenticated && r.auth.user.None? && r.stored == storage
  {
  }

  /** Initialization with a stored token and a successful verification ends
      authenticated as the returned identity, with the stored token in the
      record and in the header. */
  lemma InitializeVerified(storage: Option<string>, u: User)
    requires Truthy(storage)
    ensures var r := InitializeStep(InitialSession(storage), Ok(u));
      && r.auth == AuthState(Some(u), storage, true, false)
      && r.stored == storage
      && r.header == Some("Bearer " + storage.value)
  {
  }

  /** Initialization with a stored token and ANY failed verification (not
      only 401 or 403) ends logged out with the stored token removed. */
  lemma InitializeRejected(s: Session, f: Fault)
    requires Truthy(s.stored)
    ensures InitializeStep(s, Failed(f)) == LogoutStep(s)
  {
  }

  /** `getCurrentUser` on its own logs out on 401/403 and keeps the session
      on any other failure. */
  lemma GetCurrentUserFailure(s: Session, f: Fault)
    ensures IsAuthError(f) ==> Step(s, GetCurrentUser(Failed(f))) == LogoutStep(s)
    ensures !IsAuthError(f) ==> Step(s, GetCurrentUser(Failed(f))) == s
  {
  }

  /** Login success writes exactly the response into the record and the
      storage; login failure and every `register` leave the session as it was. */
  lemma LoginAndRegister(s: Session, e: Event)
    requires e.Login? || e.Register?
    ensures e.Login? && e.answer.Ok? ==>
      && Step(s, e).auth == AuthState(Some(LoginUser(e.answer.body)), Some(e.answer.body.token), true, false)
      && Step(s, e).stored == Some(e.answer.body.token)
    ensures e.Register? || (e.Login? && e.answer.Failed?) ==> Step(s, e) == s
  {
  }

  /** Every event preserves the invariant. */
  lemma StepPreservesInv(s: Session, e: Event)
    requires Inv(s)
    ensures Inv(Step(s, e))
  {
  }

  /** Every session reachable from the first render by any sequence of
      operations satisfies the invariant: an authenticated session has a
      user and is not loading, the record's token is the stored token, and
      the header is `Bearer <token>` exactly when that token is truthy. */
  lemma {:induction false} ReachableInv(storage: Option<string>, es: seq<Event>)
    ensures Inv(Run(InitialSession(storage), es))
  {
    RunPreservesInv(InitialSession(storage), es);
  }

  lemma {:induction false} RunPreservesInv(s: Session, es: seq<Event>)
    requires Inv(s)
    ensures Inv(Run(s, es))
    decreases |es|
  {
    if es != [] {
      StepPreservesInv(s, es[0]);
      RunPreservesInv(Step(s, es[0]), es[1..]);
    }
  }

  // ---------------------------------------------------------------------
  // The provider, with the state it mutates
  // ---------------------------------------------------------------------

  class AuthProvider {
    /** The record published to the rest of the app. */
    var authState: AuthState
    /** `localStorage['jwtToken']`. */
    var stored: Option<string>
    /** `axios.defaults.headers.common['Authorization']`. */
    var header: Option<string>

    function Snapshot(): Session
      reads this
    {
      Session(authState, stored, header)
    }

    ghost predicate Valid()
      reads this
    {
      Inv(Snapshot())
    }

    /** First render: the record is read from storage and the header effect
        runs once for the initial token. */
    constructor (storage: Option<string>)
      ensures Valid()
      ensures Snapshot() == InitialSession(storage)
    {
      authState := AuthState(None, storage, false, true);
      stored := storage;
      new;
      SyncHeader();
    }

    /** The effect that runs whenever `authState.token` changes. */
    method SyncHeader()
      modifies this`header
      ensures header == HeaderFor(authState.token)
    {
      if Truthy(authState.token) {
        header := Some("Bearer " + authState.token.value);
      } else {
        header := None;
      }
    }

    method Logout()
      requires Valid()
      modifies this
      ensures Valid()
      ensures Snapshot() == LogoutStep(old(Snapshot()))
    {
      stored := None;
      authState := AuthState(None, None, false, false);
      SyncHeader();
    }

    /** `getCurrentUser` after `/auth/me` has answered `verify`; returns the
        error it rethrows, if any. */
    method GetCurrentUser(verify: Reply<User>) returns (thrown: Option<Fault>)
      requires Valid()
      modifies this
      ensures Valid()
      ensures Snapshot() == VerifyStep(old(Snapshot()), verify)
      ensures thrown == Thrown(verify)
    {
      match verify {
        case Ok(u) =>
          authState := authState.(user := Some(u), isAuthenticated := true, isLoading := false);
          thrown := None;
        case Failed(f) =>
          if IsAuthError(f) {
            Logout();
          }
          thrown := Some(f);
      }
    }

    /** `initializeAuth`, run once on load; errors are caught, not rethrown. */
    method InitializeAuth(verify: Reply<User>)
      requires Valid()
      modifies this
      ensures Valid()
      ensures Snapshot() == InitializeStep(old(Snapshot()), verify)
    {
      var token := stored;
      if Truthy(token) {
        authState := authState.(token := token);
        SyncHeader();
        var thrown := GetCurrentUser(verify);
        if thrown.Some? {
          Logout();
        }
      } else {
        authState := authState.(isLoading := false);
      }
    }

    /** `login` after `/auth/login` has answered; returns the error it rethrows. */
    method Login(email: string, password: string, answer: Reply<LoginResponse>) returns (thrown: Option<Fault>)
      requires Valid()
      modifies this
      ensures Valid()
      ensures Snapshot() == LoginStep(old(Snapshot()), answer)
      ensures thrown == Thrown(answer)
    {
      match answer {
        case Ok(resp) =>
          stored := Some(resp.token);
          authState := AuthState(Some(LoginUser(resp)), Some(resp.token), true, false);
          SyncHeader();
          thrown := None;
        case Failed(f) =>
          thrown := Some(f);
      }
    }

    /** `register` after `/auth/register` has answered: touches no state. */
    method Register(email: string, password: string, firstName: string, lastName: string, answer: Reply<()>)
      returns (thrown: Option<Fault>)
      ensures thrown.None? <==> answer.Ok?
      ensures thrown.Some? ==> thrown.value == answer.fault
    {
      thrown := Thrown(answer);
    }
  }
}
