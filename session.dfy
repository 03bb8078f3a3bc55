/** The session store of the front end (frontend/src/contexts/authStore.ts) as a state machine.
    A machine is the in-memory record `{user, token, isAuthenticated, isLoading}` together with
    the `localStorage` items. Each action is one atomic step from the call to its completion,
    and the server's answer to the request it makes is an input. The step functions here are the
    specification that the imperative store in module AuthStore is proved against. */
module Session {
  import opened Wrappers
  import opened BrowserStorage
  import opened ApiClient

  datatype Role = Client | Driver | Admin | Manager

  /** The `UserRole` string values. */
  function RoleName(r: Role): string {
    match r
    case Client => "CLIENT"
    case Driver => "DRIVER"
    case Admin => "ADMIN"
    case Manager => "MANAGER"
  }

  datatype UserStatus = Active | Inactive | Suspended

  datatype User = User(
    id: string, email: string, firstName: string, lastName: string, phone: string,
    role: Role, status: UserStatus, createdAt: string, updatedAt: string, avatar: Option<string>)

  datatype LoginResponse = LoginResponse(accessToken: string, refreshToken: string, user: User)

  /** The in-memory part of the store. */
  datatype State = State(user: Option<User>, token: Option<string>, isAuthenticated: bool, isLoading: bool)

  /** The initial state, which is also the state `logout` and `clearAuth` reset to. */
  const Initial: State := State(None, None, false, false)

  /** An authenticated session knows its user and its token. */
  predicate Consistent(s: State) {
    s.isAuthenticated ==> s.user.Some? && s.token.Some?
  }

  datatype Machine = Machine(state: State, items: Items)

  /** How an action settles: a `Promise<void>` that resolves, a `Promise<boolean>` that resolves
      with a value, or a rejection carrying the error. */
  datatype Outcome = Resolved | ResolvedWith(authenticated: bool) | Rejected(error: HttpError)

  /** One action's effect: the machine afterwards, how it settled, the requests it sent and
      whether the 401 handler sent the browser to the sign-in page. */
  datatype Step = Step(after: Machine, outcome: Outcome, sent: seq<Request>, redirected: bool)

  /** The single request an action sends to endpoint e from machine m. */
  function SentFrom(m: Machine, e: Endpoint): seq<Request> {
    [Request(e, HeadersFor(m.items))]
  }

  /** What a successful `login` or `refreshToken` leaves behind. */
  function SignedIn(m: Machine, r: LoginResponse): (after: Machine)
    ensures after.state == State(Some(r.user), Some(r.accessToken), true, false)
    ensures after.items.Keys == m.items.Keys + {AccessTokenKey, RefreshTokenKey}
    ensures after.items[AccessTokenKey] == r.accessToken && after.items[RefreshTokenKey] == r.refreshToken
    ensures forall k :: k in m.items && k != AccessTokenKey && k != RefreshTokenKey ==> after.items[k] == m.items[k]
  {
    Machine(State(Some(r.user), Some(r.accessToken), true, false),
            m.items[AccessTokenKey := r.accessToken][RefreshTokenKey := r.refreshToken])
  }

  /** `clearAuth`: the three session keys are removed and the state reset. */
  function ClearAuthStep(m: Machine): (s: Step)
    ensures s.after.state == Initial
    ensures s.after.items.Keys == m.items.Keys - SessionKeys
    ensures forall k :: k in s.after.items ==> s.after.items[k] == m.items[k]
    ensures s.outcome == Resolved && s.sent == [] && !s.redirected
  {
    Step(Machine(Initial, m.items - SessionKeys), Resolved, [], false)
  }

  /** `login`: on success both tokens are stored and the session is authenticated; on failure
      `login` itself stores nothing, only `isLoading` changes, and the error is re-thrown. The
      401 handler still runs on a failed login. */
  function LoginStep(m: Machine, credentials: Credentials, reply: Reply<LoginResponse>): (s: Step)
    ensures s.sent == SentFrom(m, PostLogin(credentials))
    ensures reply.Ok? ==> s.after == SignedIn(m, reply.payload) && s.outcome == Resolved && !s.redirected
    ensures reply.Err? ==> s.outcome == Rejected(reply.error)
    ensures reply.Err? ==> s.after.state == m.state.(isLoading := false)
    ensures reply.Err? ==> s.after.items == AfterRejection(m.items, reply.error)
    ensures reply.Err? ==> forall k :: k in s.after.items ==> k in m.items && s.after.items[k] == m.items[k]
    ensures s.redirected <==> Redirects(reply)
  {
    match reply
    case Ok(r) => Step(SignedIn(m, r), Resolved, SentFrom(m, PostLogin(credentials)), false)
    case Err(e) =>
      Step(Machine(m.state.(isLoading := false), AfterRejection(m.items, e)), Rejected(e),
           SentFrom(m, PostLogin(credentials)), IsUnauthorized(e))
  }

  /** `logout`: whatever the server answers, the three keys are removed, the state is reset and
      the promise resolves. */
  function LogoutStep(m: Machine, reply: Reply<()>): (s: Step)
    ensures s.sent == SentFrom(m, PostLogout)
    ensures s.after.state == Initial
    ensures s.after.items == m.items - SessionKeys
    ensures s.outcome == Resolved
    ensures s.redirected <==> Redirects(reply)
  {
    var cleared := ClearAuthStep(Machine(m.state, AfterReply(m.items, reply)));
    Step(cleared.after, Resolved, SentFrom(m, PostLogout), Redirects(reply))
  }

  /** `refreshToken`: posts the stored refresh token; on success the effect of a successful
      login, on failure `clearAuth` and the error re-thrown. */
  function RefreshStep(m: Machine, reply: Reply<LoginResponse>): (s: Step)
    ensures s.sent == SentFrom(m, PostRefresh(Lookup(m.items, RefreshTokenKey)))
    ensures reply.Ok? ==> s.after == SignedIn(m, reply.payload) && s.outcome == Resolved
    ensures reply.Err? ==> s.after == ClearAuthStep(m).after && s.outcome == Rejected(reply.error)
    ensures s.redirected <==> Redirects(reply)
  {
    var sent := SentFrom(m, PostRefresh(Lookup(m.items, RefreshTokenKey)));
    match reply
    case Ok(r) => Step(SignedIn(m, r), Resolved, sent, false)
    case Err(e) =>
      var cleared := ClearAuthStep(Machine(m.state.(isLoading := true), AfterRejection(m.items, e)));
      Step(cleared.after, Rejected(e), sent, IsUnauthorized(e))
  }

  /** `setUser`: replaces the user and nothing else. */
  function SetUserStep(m: Machine, u: User): (s: Step)
    ensures s.after == Machine(m.state.(user := Some(u)), m.items)
    ensures s.outcome == Resolved && s.sent == [] && !s.redirected
  {
    Step(Machine(m.state.(user := Some(u)), m.items), Resolved, [], false)
  }

  /** `setToken`: replaces the token and marks the session authenticated, whether or not a
      user is known. */
  function SetTokenStep(m: Machine, t: string): (s: Step)
    ensures s.after == Machine(m.state.(token := Some(t), isAuthenticated := true), m.items)
    ensures s.outcome == Resolved && s.sent == [] && !s.redirected
  {
    Step(Machine(m.state.(token := Some(t), isAuthenticated := true), m.items), Resolved, [], false)
  }

  /** `checkAuth`: without a truthy stored access token and cached user it resets the state,
      sends nothing and answers false; otherwise it validates the token against the profile
      endpoint, answering true with the server's user, or clearing the session and answering
      false. */
  function CheckAuthStep(m: Machine, reply: Reply<User>): (s: Step)
    ensures !Truthy(Lookup(m.items, AccessTokenKey)) || !Truthy(Lookup(m.items, UserKey)) ==>
              s == Step(Machine(Initial, m.items), ResolvedWith(false), [], false)
    ensures Truthy(Lookup(m.items, AccessTokenKey)) && Truthy(Lookup(m.items, UserKey)) ==>
              && s.sent == SentFrom(m, GetProfile)
              && (s.redirected <==> Redirects(reply))
              && (reply.Ok? ==> s.after == Machine(State(Some(reply.payload), Some(m.items[AccessTokenKey]), true, false), m.items)
                                && s.outcome == ResolvedWith(true))
              && (reply.Err? ==> s.after == ClearAuthStep(m).after && s.outcome == ResolvedWith(false))
    ensures s.outcome == ResolvedWith(true) <==> s.after.state.isAuthenticated
  {
    var token := Lookup(m.items, AccessTokenKey);
    var user := Lookup(m.items, UserKey);
    if !Truthy(token) || !Truthy(user) then
      Step(Machine(Initial, m.items), ResolvedWith(false), [], false)
    else
      match reply
      case Ok(u) =>
        Step(Machine(State(Some(u), Some(token.value), true, false), m.items), ResolvedWith(true),
             SentFrom(m, GetProfile), false)
      case Err(e) =>
        var cleared := ClearAuthStep(Machine(m.state.(isLoading := true), AfterRejection(m.items, e)));
        Step(cleared.after, ResolvedWith(false), SentFrom(m, GetProfile), IsUnauthorized(e))
  }

  /** Any other call through the API client (a page loading its data): the store is not
      involved, only the interceptors act. */
  function DataCallStep(m: Machine, path: string, reply: Reply<()>): (s: Step)
    ensures s.after.state == m.state
    ensures s.after.items == AfterReply(m.items, reply)
    ensures s.sent == SentFrom(m, DataRequest(path))
    ensures reply.Err? ==> s.outcome == Rejected(reply.error)
    ensures s.redirected <==> Redirects(reply)
  {
    Step(Machine(m.state, AfterReply(m.items, reply)),
         if reply.Ok? then Resolved else Rejected(reply.error),
         SentFrom(m, DataRequest(path)), Redirects(reply))
  }

  // ----- Projections -----

  /** The slice the `persist` middleware writes: `isLoading` is not part of it. */
  datatype Persisted = Persisted(user: Option<User>, token: Option<string>, isAuthenticated: bool)

  function Partialize(s: State): (p: Persisted)
    ensures p.user == s.user && p.token == s.token && p.isAuthenticated == s.isAuthenticated
  {
    Persisted(s.user, s.token, s.isAuthenticated)
  }

  /** The persisted slice of a state does not depend on its loading flag. */
  lemma PartializeIgnoresLoading(s: State, loading: bool)
    ensures Partialize(s) == Partialize(s.(isLoading := loading))
  {
  }

  /** What `useAuth` hands to components. */
  datatype AuthView = AuthView(
    user: Option<User>, isAuthenticated: bool, isLoading: bool,
    isClient: bool, isDriver: bool, isAdmin: bool, isManager: bool)

  function HasRole(s: State, r: Role): bool {
    s.user.Some? && s.user.value.role == r
  }

  function UseAuth(s: State): (v: AuthView)
    ensures v.user == s.user && v.isAuthenticated == s.isAuthenticated && v.isLoading == s.isLoading
    ensures v.isClient <==> s.user.Some? && s.user.value.role == Client
    ensures v.isDriver <==> s.user.Some? && s.user.value.role == Driver
    ensures v.isAdmin <==> s.user.Some? && s.user.value.role == Admin
    ensures v.isManager <==> s.user.Some? && s.user.value.role == Manager
  {
    AuthView(s.user, s.isAuthenticated, s.isLoading,
             HasRole(s, Client), HasRole(s, Driver), HasRole(s, Admin), HasRole(s, Manager))
  }

  /** At most one role flag is raised, and one is raised exactly when a user is known. */
  lemma RoleFlagsExclusive(s: State)
    ensures var v := UseAuth(s);
            (if v.isClient then 1 else 0) + (if v.isDriver then 1 else 0)
            + (if v.isAdmin then 1 else 0) + (if v.isManager then 1 else 0) == (if s.user.Some? then 1 else 0)
  {
  }

  /** The members of the object `useAuthActions` returns; the state fields are not among them. */
  const AuthActionMembers: set<string> := {"login", "logout", "refreshToken", "checkAuth"}

  // ----- Runs of actions -----

  datatype Action =
    | LoginAction(credentials: Credentials, loginReply: Reply<LoginResponse>)
    | LogoutAction(logoutReply: Reply<()>)
    | RefreshAction(refreshReply: Reply<LoginResponse>)
    | SetUserAction(newUser: User)
    | SetTokenAction(newToken: string)
    | ClearAuthAction
    | CheckAuthAction(profileReply: Reply<User>)
    | DataCall(path: string, dataReply: Reply<()>)

  function Apply(m: Machine, a: Action): Step {
    match a
    case LoginAction(c, r) => LoginStep(m, c, r)
    case LogoutAction(r) => LogoutStep(m, r)
    case RefreshAction(r) => RefreshStep(m, r)
    case SetUserAction(u) => SetUserStep(m, u)
    case SetTokenAction(t) => SetTokenStep(m, t)
    case ClearAuthAction => ClearAuthStep(m)
    case CheckAuthAction(r) => CheckAuthStep(m, r)
    case DataCall(p, r) => DataCallStep(m, p, r)
  }

  function Run(m: Machine, trace: seq<Action>): Machine
    decreases |trace|
  {
    if trace == [] then m else Run(Apply(m, trace[0]).after, trace[1..])
  }

  // ----- Properties -----

  /** Clearing twice is clearing once. */
  lemma ClearAuthIdempotent(m: Machine)
    ensures ClearAuthStep(ClearAuthStep(m).after) == ClearAuthStep(m)
  {
  }

  /** A successful refresh has exactly the effect of a successful login with the same answer. */
  lemma RefreshSuccessIsLogin(m: Machine, c: Credentials, r: LoginResponse)
    ensures RefreshStep(m, Ok(r)).after == LoginStep(m, c, Ok(r)).after
    ensures RefreshStep(m, Ok(r)).outcome == LoginStep(m, c, Ok(r)).outcome
  {
  }

  /** Every action except `setToken` keeps an authenticated session's user and token known. */
  lemma ApplyKeepsConsistent(m: Machine, a: Action)
    requires Consistent(m.state) && !a.SetTokenAction?
    ensures Consistent(Apply(m, a).after.state)
  {
  }

  /** `setToken` alone can authenticate a session that has no user. */
  lemma SetTokenBreaksConsistency(t: string)
    ensures !Consistent(SetTokenStep(Machine(Initial, map[]), t).after.state)
  {
  }

  function HasSetToken(trace: seq<Action>): bool {
    exists i :: 0 <= i < |trace| && trace[i].SetTokenAction?
  }

  /** A run with no `setToken` in it keeps the session consistent. */
  lemma {:induction false} RunKeepsConsistent(m: Machine, trace: seq<Action>)
    requires Consistent(m.state) && !HasSetToken(trace)
    ensures Consistent(Run(m, trace).state)
    decreases |trace|
  {
    if trace != [] {
      ApplyKeepsConsistent(m, trace[0]);
      assert !HasSetToken(trace[1..]) by {
        forall i | 0 <= i < |trace[1..]| ensures !trace[1..][i].SetTokenAction? {
          assert trace[1..][i] == trace[i + 1];
        }
      }
      RunKeepsConsistent(Apply(m, trace[0]).after, trace[1..]);
    }
  }

  /** No action writes the `user` key: it can only be removed. */
  lemma ApplyNeverWritesUser(m: Machine, a: Action)
    requires UserKey !in m.items
    ensures UserKey !in Apply(m, a).after.items
  {
  }

  lemma {:induction false} RunNeverWritesUser(m: Machine, trace: seq<Action>)
    requires UserKey !in m.items
    ensures UserKey !in Run(m, trace).items
    decreases |trace|
  {
    if trace != [] {
      ApplyNeverWritesUser(m, trace[0]);
      RunNeverWritesUser(Apply(m, trace[0]).after, trace[1..]);
    }
  }

  /** Starting from empty storage, whatever the actions and the server's answers, `checkAuth`
      never gets past its key test: it answers false without a request. A session is therefore
      never restored on reload. */
  lemma {:induction false} CheckAuthFailsAfterAnyRun(trace: seq<Action>, reply: Reply<User>)
    ensures var s := CheckAuthStep(Run(Machine(Initial, map[]), trace), reply);
            s.outcome == ResolvedWith(false) && s.sent == [] && !s.after.state.isAuthenticated
  {
    RunNeverWritesUser(Machine(Initial, map[]), trace);
  }

  /** A 401 on any request leaves the in-memory session as it was, possibly authenticated, while
      the stored access token is gone, so the next request goes out without a bearer header;
      the refresh token survives. */
  lemma {:induction false} UnauthorizedLeavesStaleSession(m: Machine, path: string, status: Option<int>)
    requires status == Some(401)
    ensures var s := DataCallStep(m, path, Err(HttpError(status)));
            && s.after.state == m.state
            && HeadersFor(s.after.items) == JsonHeaders
            && Lookup(s.after.items, RefreshTokenKey) == Lookup(m.items, RefreshTokenKey)
            && s.redirected
  {
    var after := DataCallStep(m, path, Err(HttpError(status))).after;
    assert AccessTokenKey !in after.items;
  }
}
