/** The session store (`AuthProvider`): the signed-in user and token, the
    loading and error flags, the optimistic user shown while a request is in
    flight, and the two `localStorage` keys that let a session survive a
    reload. Backend replies are inputs; the requests sent and the routes
    navigated to are recorded. */
module AuthContext {
  import opened Wrappers

  /** `IUser`, restricted to the fields the client reads or writes. */
  datatype User = User(id: string, name: string, email: string, role: Option<string>)

  /** A request sent to the backend. */
  datatype Request =
    | LoginRequest(email: string, password: string)
    | LogoutRequest
    | RegisterRequest(name: string, email: string, password: string, role: Option<string>)

  /** What `POST /api/auth/login` leads to: an ok response carrying the user
      and token, or any failure (network error, unreadable body, non-ok
      status) with the message of the `Error` that is thrown. */
  datatype LoginReply = LoginOk(user: User, token: string) | LoginFailed(message: string)

  /** What `POST /api/auth/register` leads to. */
  datatype RegisterReply = Registered | RegisterFailed(message: string)

  /** What `POST /api/auth/logout` leads to: `fetch` rejects only when the
      request cannot be delivered. */
  datatype LogoutReply = LogoutDelivered | LogoutUnreachable(message: string)

  const UserKey := "user"
  const TokenKey := "token"
  const DashboardRoute := "/dashboard"
  const LoadingName := "Carregando ..."

  /** `JSON.stringify(user)` (string contents are not escaped here). */
  function UserJson(u: User): (r: string)
    ensures r != []
  {
    "{\"id\":\"" + u.id + "\",\"name\":\"" + u.name + "\",\"email\":\"" + u.email + "\""
      + (match u.role case Some(role) => ",\"role\":\"" + role + "\"" case None => "")
      + "}"
  }

  /** The placeholder user shown while a login or registration is pending:
      id `temp`, the given name and e-mail, and no role. */
  function TempUser(name: string, email: string): (r: User)
    ensures r.id == "temp" && r.name == name && r.email == email && r.role == None
  {
    User("temp", name, email, None)
  }

  /** A snapshot of everything the provider owns or causes. */
  datatype Session = Session(
    user: Option<User>,
    token: Option<string>,
    isLoading: bool,
    error: Option<string>,
    optimisticUser: Option<User>,
    storage: map<string, string>,
    requests: seq<Request>,
    navigations: seq<string>)

  /** The new session after an operation, and the message of the error the
      operation re-throws to its caller, if any. */
  datatype Outcome = Outcome(session: Session, thrown: Option<string>)

  /** A user is held exactly when a token is held. */
  predicate Paired(s: Session) {
    s.user.Some? <==> s.token.Some?
  }

  /** `isAuthenticated: !!user`; in a paired session, the same as holding a
      token. */
  function Authenticated(s: Session): (r: bool)
    ensures Paired(s) ==> (r <==> s.token.Some?)
  {
    s.user.Some?
  }

  /** The provider's state on mount, over whatever the store already holds. */
  function InitialSession(stored: map<string, string>): (r: Session)
    ensures Paired(r) && !Authenticated(r)
  {
    Session(None, None, false, None, None, stored, [], [])
  }

  /** A store entry that is present and non-empty (a truthy `getItem`). */
  predicate StoredNonEmpty(storage: map<string, string>, key: string) {
    key in storage && storage[key] != ""
  }

  /** Both keys hold something, so the restore goes ahead. */
  predicate BothStored(storage: map<string, string>) {
    StoredNonEmpty(storage, TokenKey) && StoredNonEmpty(storage, UserKey)
  }

  /** What `JSON.parse` gives for the stored user: a user object, a falsy
      value (the texts `null`, `false`, `0` or `""`), or a thrown error. */
  datatype ParseResult = ParsedUser(value: User) | ParsedFalsy | ParseThrows

  /** `logout()`: the optimistic user is dropped and the request is sent;
      whatever the reply, the `finally` block clears user, token and both
      store keys. An undeliverable request is re-thrown after the cleanup. */
  function AfterLogout(s: Session, reply: LogoutReply): (r: Outcome)
    ensures !Authenticated(r.session) && r.session.token == None && r.session.optimisticUser == None
    ensures UserKey !in r.session.storage && TokenKey !in r.session.storage
    ensures forall k :: k != UserKey && k != TokenKey ==>
      (k in r.session.storage <==> k in s.storage) &&
      (k in s.storage ==> r.session.storage[k] == s.storage[k])
    ensures r.session.requests == s.requests + [LogoutRequest]
    ensures r.session.error == s.error && r.session.isLoading == s.isLoading
      && r.session.navigations == s.navigations
    ensures Paired(r.session)
    ensures r.thrown.Some? <==> reply.LogoutUnreachable?
    ensures reply.LogoutUnreachable? ==> r.thrown == Some(reply.message)
  {
    var cleared := s.(optimisticUser := None, requests := s.requests + [LogoutRequest],
                      user := None, token := None, storage := s.storage - {UserKey, TokenKey});
    match reply
    case LogoutDelivered => Outcome(cleared, None)
    case LogoutUnreachable(m) => Outcome(cleared, Some(m))
  }

  /** `loadAuthData()`: when both store keys hold something, the token is
      restored and then the user is set to what `JSON.parse` gives for the
      stored text; a parse that throws is caught and triggers `logout()`.
      Loading ends in every case. A stored user that parses to a falsy value
      leaves the token restored without a user. */
  function AfterRestore(s: Session, parsed: ParseResult, logoutReply: LogoutReply): (r: Session)
    ensures !r.isLoading && r.error == s.error && r.navigations == s.navigations
    ensures BothStored(s.storage) && parsed.ParsedUser? ==>
      && r.user == Some(parsed.value) && r.optimisticUser == Some(parsed.value)
      && r.token == Some(s.storage[TokenKey])
      && r.storage == s.storage && r.requests == s.requests
    ensures BothStored(s.storage) && parsed.ParsedFalsy? ==>
      && r.user == None && r.optimisticUser == None
      && r.token == Some(s.storage[TokenKey])
      && r.storage == s.storage && r.requests == s.requests
    ensures BothStored(s.storage) && parsed.ParseThrows? ==>
      && r.user == None && r.optimisticUser == None && r.token == None
      && r.storage == s.storage - {UserKey, TokenKey}
      && r.requests == s.requests + [LogoutRequest]
    ensures !BothStored(s.storage) ==> r == s.(isLoading := false)
    ensures Paired(r) <==> if BothStored(s.storage) then !parsed.ParsedFalsy? else Paired(s)
  {
    if BothStored(s.storage) then
      var withToken := s.(token := Some(s.storage[TokenKey]));
      match parsed
      case ParsedUser(u) => withToken.(user := Some(u), optimisticUser := Some(u), isLoading := false)
      case ParsedFalsy => withToken.(user := None, optimisticUser := None, isLoading := false)
      case ParseThrows => AfterLogout(withToken, logoutReply).session.(isLoading := false)
    else
      s.(isLoading := false)
  }

  /** `login(email, password)`: on an ok reply the user and token are set,
      written to the store and the app navigates to the dashboard; on a
      failure the message becomes `error`, the optimistic user is dropped,
      user, token and store are untouched and the error is re-thrown. Either
      way the error was cleared on entry and loading has ended. */
  function AfterLogin(s: Session, email: string, password: string, reply: LoginReply): (r: Outcome)
    ensures !r.session.isLoading
    ensures r.session.requests == s.requests + [LoginRequest(email, password)]
    ensures Paired(s) ==> Paired(r.session)
    ensures reply.LoginOk? ==>
      && r.thrown == None && r.session.error == None
      && r.session.user == Some(reply.user) && r.session.optimisticUser == Some(reply.user)
      && r.session.token == Some(reply.token)
      && r.session.storage == s.storage[UserKey := UserJson(reply.user)][TokenKey := reply.token]
      && r.session.navigations == s.navigations + [DashboardRoute]
    ensures reply.LoginFailed? ==>
      && r.thrown == Some(reply.message) && r.session.error == Some(reply.message)
      && r.session.optimisticUser == None
      && r.session.user == s.user && r.session.token == s.token
      && r.session.storage == s.storage && r.session.navigations == s.navigations
  {
    var pending := s.(isLoading := true, error := None,
                      optimisticUser := Some(TempUser(LoadingName, email)),
                      requests := s.requests + [LoginRequest(email, password)]);
    match reply
    case LoginOk(u, t) =>
      Outcome(pending.(user := Some(u), token := Some(t),
                       storage := s.storage[UserKey := UserJson(u)][TokenKey := t],
                       optimisticUser := Some(u),
                       navigations := s.navigations + [DashboardRoute],
                       isLoading := false),
              None)
    case LoginFailed(m) =>
      Outcome(pending.(optimisticUser := None, error := Some(m), isLoading := false), Some(m))
  }

  /** `register(name, email, password, role)`: a failed registration sets
      the error and re-throws without ever logging in; a successful one
      logs in with the same e-mail and password, and a failure of that login
      is reported as the registration's error. */
  function AfterRegister(s: Session, name: string, email: string, password: string, role: Option<string>,
                    reply: RegisterReply, loginReply: LoginReply): (r: Outcome)
    ensures !r.session.isLoading
    ensures Paired(s) ==> Paired(r.session)
    ensures reply.RegisterFailed? ==>
      && r.session.requests == s.requests + [RegisterRequest(name, email, password, role)]
      && r.thrown == Some(reply.message) && r.session.error == Some(reply.message)
      && r.session.optimisticUser == None
      && r.session.user == s.user && r.session.token == s.token
      && r.session.storage == s.storage && r.session.navigations == s.navigations
    ensures reply.Registered? ==>
      r.session.requests == s.requests + [RegisterRequest(name, email, password, role), LoginRequest(email, password)]
    ensures reply.Registered? ==>
      && (r.thrown.Some? <==> loginReply.LoginFailed?)
      && (loginReply.LoginFailed? ==> r.thrown == Some(loginReply.message) && r.session.error == Some(loginReply.message))
  {
    var pending := s.(isLoading := true, error := None,
                      optimisticUser := Some(TempUser(name, email)),
                      requests := s.requests + [RegisterRequest(name, email, password, role)]);
    match reply
    case RegisterFailed(m) =>
      Outcome(pending.(optimisticUser := None, error := Some(m), isLoading := false), Some(m))
    case Registered =>
      var login := AfterLogin(pending, email, password, loginReply);
      match login.thrown
      case None => login
      case Some(m) =>
        Outcome(login.session.(optimisticUser := None, error := Some(m), isLoading := false), Some(m))
  }

  /** `clearError()`: the error is gone and nothing else changes. */
  function AfterClearError(s: Session): (r: Session)
    ensures r.error == None
    ensures r.(error := s.error) == s
  {
    s.(error := None)
  }

  /** A successful registration ends in exactly the state that logging in
      from the pending registration would give: registering implies being
      signed in when the login succeeds. */
  lemma RegisterIsLogin(s: Session, name: string, email: string, password: string, role: Option<string>,
                        loginReply: LoginReply)
    ensures var pending := s.(isLoading := true, error := None,
                              optimisticUser := Some(TempUser(name, email)),
                              requests := s.requests + [RegisterRequest(name, email, password, role)]);
      AfterRegister(s, name, email, password, role, Registered, loginReply).session
        == AfterLogin(pending, email, password, loginReply).session
    ensures loginReply.LoginOk? ==>
      Authenticated(AfterRegister(s, name, email, password, role, Registered, loginReply).session)
  {
  }

  /** What a successful login writes to the store restores the same session
      after a reload, provided the token is non-empty and the stored user
      parses back to itself; an empty token is falsy and nothing is
      restored. */
  lemma LoginSurvivesReload(s: Session, email: string, password: string,
                            u: User, t: string, logoutReply: LogoutReply)
    ensures var stored := AfterLogin(s, email, password, LoginOk(u, t)).session.storage;
      var r := AfterRestore(InitialSession(stored), ParsedUser(u), logoutReply);
      if t != "" then r.user == Some(u) && r.token == Some(t) && r.optimisticUser == Some(u)
      else !Authenticated(r)
  {
  }

  /** After a logout nothing is left to restore, whatever `JSON.parse` and
      the backend would do. */
  lemma LogoutLeavesNothingToRestore(s: Session, reply: LogoutReply, parsed: ParseResult,
                                     logoutReply: LogoutReply)
    ensures AfterRestore(InitialSession(AfterLogout(s, reply).session.storage), parsed, logoutReply).token == None
    ensures !Authenticated(AfterRestore(InitialSession(AfterLogout(s, reply).session.storage), parsed, logoutReply))
  {
  }

  /** Any single operation of the provider. */
  datatype Operation =
    | OpRestore(parsed: ParseResult, restoreLogoutReply: LogoutReply)
    | OpLogin(loginEmail: string, loginPassword: string, loginResult: LoginReply)
    | OpLogout(logoutResult: LogoutReply)
    | OpRegister(name: string, email: string, password: string, role: Option<string>,
                 reply: RegisterReply, loginReply: LoginReply)
    | OpClearError

  function Apply(s: Session, op: Operation): Session {
    match op
    case OpRestore(p, l) => AfterRestore(s, p, l)
    case OpLogin(e, p, r) => AfterLogin(s, e, p, r).session
    case OpLogout(r) => AfterLogout(s, r).session
    case OpRegister(n, e, p, ro, r, l) => AfterRegister(s, n, e, p, ro, r, l).session
    case OpClearError => AfterClearError(s)
  }

  /** The session after a sequence of operations, one after the other. */
  function Run(s: Session, ops: seq<Operation>): Session
    decreases |ops|
  {
    if ops == [] then s else Run(Apply(s, ops[0]), ops[1..])
  }

  /** A restore whose stored user parses to a falsy value. */
  predicate FalsyRestore(op: Operation) {
    op.OpRestore? && op.parsed.ParsedFalsy?
  }

  /** However the operations are sequenced, user and token are set and
      cleared together, starting from any store, as long as no restore
      meets a stored user that parses to a falsy value. */
  lemma {:induction false} RunKeepsPaired(stored: map<string, string>, ops: seq<Operation>)
    requires forall i :: 0 <= i < |ops| ==> !FalsyRestore(ops[i])
    ensures Paired(Run(InitialSession(stored), ops))
  {
    RunFromPaired(InitialSession(stored), ops);
  }

  lemma {:induction false} RunFromPaired(s: Session, ops: seq<Operation>)
    requires Paired(s)
    requires forall i :: 0 <= i < |ops| ==> !FalsyRestore(ops[i])
    ensures Paired(Run(s, ops))
    decreases |ops|
  {
    if ops != [] {
      var next := Apply(s, ops[0]);
      assert Paired(next);
      assert forall i :: 0 <= i < |ops[1..]| ==> ops[1..][i] == ops[i + 1];
      RunFromPaired(next, ops[1..]);
    }
  }

  /** The exception `RunKeepsPaired` leaves out is real: with the stored user
      `null`, the mount restores the token and no user, sends no logout, and
      the provider reports not authenticated while holding a token. */
  lemma NullStoredUserLeavesTokenWithoutUser()
    ensures var r := Run(InitialSession(map[TokenKey := "t", UserKey := "null"]),
                         [OpRestore(ParsedFalsy, LogoutDelivered)]);
      && r.token == Some("t") && r.user == None && !Authenticated(r)
      && !Paired(r) && r.requests == []
  {
  }

  /** The login scenario: the backend accepts `a@b.com` / `secret` with user
      `1` and token `t1`; the session is then authenticated and `t1` is
      stored. */
  lemma LoginScenario()
    ensures var u := User("1", "A", "a@b.com", None);
      var r := AfterLogin(InitialSession(map[]), "a@b.com", "secret", LoginOk(u, "t1")).session;
      Authenticated(r) && r.storage[TokenKey] == "t1"
  {
  }

  // ---------------------------------------------------------------------
  // The provider object

  /** `AuthProvider`: each `useState` hook is a field; `storage` stands for
      `localStorage`, `requests` for the calls made through `fetch` and
      `navigations` for the calls to `navigate`. */
  class AuthProvider {
    var user: Option<User>
    var token: Option<string>
    var isLoading: bool
    var error: Option<string>
    var optimisticUser: Option<User>
    var storage: map<string, string>
    var requests: seq<Request>
    var navigations: seq<string>

    function State(): Session
      reads this
    {
      Session(user, token, isLoading, error, optimisticUser, storage, requests, navigations)
    }

    ghost predicate Valid()
      reads this
    {
      Paired(State())
    }

    /** `isAuthenticated`. */
    function IsAuthenticated(): (r: bool)
      reads this
      ensures Valid() ==> (r <==> token.Some?)
    {
      user.Some?
    }

    /** The provider on mount, over the store left by earlier visits. */
    constructor (stored: map<string, string>)
      ensures Valid()
      ensures State() == InitialSession(stored)
    {
      user, token := None, None;
      isLoading := false;
      error := None;
      optimisticUser := None;
      storage := stored;
      requests, navigations := [], [];
    }

    /** `logout()`. */
    method Logout(reply: LogoutReply) returns (thrown: Option<string>)
      modifies this
      ensures Valid()
      ensures Outcome(State(), thrown) == AfterLogout(old(State()), reply)
    {
      optimisticUser := None;
      requests := requests + [LogoutRequest];
      // the `finally` block
      user := None;
      token := None;
      storage := storage - {UserKey};
      storage := storage - {TokenKey};
      assert storage == old(storage) - {UserKey, TokenKey};
      thrown := match reply case LogoutDelivered => None case LogoutUnreachable(m) => Some(m);
    }

    /** `loadAuthData()`, run once on mount. It keeps `Valid()` unless the
        stored user parses to a falsy value. */
    method LoadAuthData(parsed: ParseResult, logoutReply: LogoutReply)
      modifies this
      ensures !parsed.ParsedFalsy? && old(Valid()) ==> Valid()
      ensures State() == AfterRestore(old(State()), parsed, logoutReply)
    {
      if BothStored(storage) {
        token := Some(storage[TokenKey]);
        match parsed {
          case ParsedUser(u) =>
            user := Some(u);
            optimisticUser := Some(u);
          case ParsedFalsy =>
            user := None;
            optimisticUser := None;
          case ParseThrows =>
            var _ := Logout(logoutReply);
        }
      }
      isLoading := false;
    }

    /** `login(email, password)`. */
    method Login(email: string, password: string, reply: LoginReply) returns (thrown: Option<string>)
      modifies this
      ensures old(Valid()) ==> Valid()
      ensures Outcome(State(), thrown) == AfterLogin(old(State()), email, password, reply)
    {
      isLoading := true;
      error := None;
      optimisticUser := Some(TempUser(LoadingName, email));
      requests := requests + [LoginRequest(email, password)];
      match reply {
        case LoginOk(u, t) =>
          user := Some(u);
          token := Some(t);
          storage := storage[UserKey := UserJson(u)];
          storage := storage[TokenKey := t];
          optimisticUser := Some(u);
          navigations := navigations + [DashboardRoute];
          thrown := None;
        case LoginFailed(m) =>
          optimisticUser := None;
          error := Some(m);
          thrown := Some(m);
      }
      isLoading := false;
    }

    /** `register(name, email, password, role)`. */
    method Register(name: string, email: string, password: string, role: Option<string>,
                    reply: RegisterReply, loginReply: LoginReply) returns (thrown: Option<string>)
      modifies this
      ensures old(Valid()) ==> Valid()
      ensures Outcome(State(), thrown)
        == AfterRegister(old(State()), name, email, password, role, reply, loginReply)
    {
      isLoading := true;
      error := None;
      optimisticUser := Some(TempUser(name, email));
      requests := requests + [RegisterRequest(name, email, password, role)];
      match reply {
        case RegisterFailed(m) =>
          optimisticUser := None;
          error := Some(m);
          thrown := Some(m);
        case Registered =>
          thrown := Login(email, password, loginReply);
          if thrown.Some? {
            optimisticUser := None;
            error := thrown;
          }
      }
      isLoading := false;
    }

    /** `clearError()`. */
    method ClearError()
      modifies this
      ensures Valid() <==> old(Valid())
      ensures State() == AfterClearError(old(State()))
    {
      error := None;
    }
  }
}
