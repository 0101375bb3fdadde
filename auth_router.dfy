/** The `/auth` endpoints: register, login, logout, me and the session sweep.
    Each handler composes the store's operations and answers either with a
    user view and a cookie instruction, or with an HTTP error. */
module AuthRouter {
  import opened Basics
  import opened AuthStore
  import opened AuthDependencies
  import Security

  const SessionCookieName: string := "juris_session"
  /** Seven days, in seconds. */
  const SessionMaxAge: int := 7 * 24 * 60 * 60
  /** `Field(..., min_length=8)` on the registration password. */
  const MinPasswordLength: nat := 8

  const EmailAlreadyRegistered: HttpError := HttpError(400, "Email already registered")
  const InvalidCredentials: HttpError := HttpError(Unauthorized, "Invalid email or password")
  const PasswordTooShort: HttpError := HttpError(422, "String should have at least 8 characters")
  const InternalServerError: HttpError := HttpError(500, "Internal Server Error")
  const RegistrationFailedPrefix: string := "Registration failed: "

  /** UserResponse: the only user fields an answer carries. */
  datatype UserResponse = UserResponse(id: string, email: string, fullName: Option<string>, createdAt: int)

  /** What a handler asks the response to do with the session cookie. */
  datatype CookieAction =
    | SetCookie(name: string, value: string, maxAge: int, httpOnly: bool, secure: bool, sameSite: string)
    | DeleteCookie(name: string, httpOnly: bool, secure: bool, sameSite: string)

  datatype RegisterRequest = RegisterRequest(email: string, password: string, fullName: Option<string>)
  datatype LoginRequest = LoginRequest(email: string, password: string)

  /** The caller's address and `user-agent` header, recorded on new sessions. */
  datatype Client = Client(host: Option<string>, userAgent: Option<string>)

  /** The answer for a user: its id as text (which reads back as the id),
      email, name and creation time; there is no field for the hash. */
  function ToResponse(u: User): (r: UserResponse)
    ensures ParseObjectId(r.id) == Some(u.id)
    ensures r.email == u.email && r.fullName == u.fullName && r.createdAt == u.createdAt
  {
    ParseIdText(u.id);
    UserResponse(IdText(u.id), u.email, u.fullName, u.createdAt)
  }

  /** The HttpOnly, lax cookie that carries a session's id. */
  function SessionCookie(s: Session): (c: CookieAction)
    ensures c.SetCookie? && c.name == SessionCookieName && ParseObjectId(c.value) == Some(s.id)
    ensures c.maxAge == Security.SessionExpiry(s.createdAt) - s.createdAt
  {
    ParseIdText(s.id);
    SetCookie(SessionCookieName, IdText(s.id), SessionMaxAge, true, false, "lax")
  }

  /** The session a successful register or login creates. */
  function NewSession(id: ObjectId, userId: ObjectId, now: int, client: Client): (s: Session)
    ensures s.id == id && s.userId == userId
    ensures !Security.IsSessionExpired(s.expiresAt, now)
    ensures s.expiresAt == now + SessionMaxAge
  {
    Session(id, userId, now, Security.SessionExpiry(now), client.host, client.userAgent)
  }

  /** POST /auth/register. The password length is checked before the handler
      runs. A duplicate email gives 400; any other failure gives 500 with the
      "Registration failed: " prefix, and a user created before the failure
      stays. On success exactly one user and one session for it are added,
      and the cookie names that session for seven days. */
  method Register(db: AuthDatabase, req: RegisterRequest, hasher: Security.PasswordHasher,
                  salt: string, client: Client, now: int,
                  newUserId: ObjectId, newSessionId: ObjectId,
                  userFault: Option<string>, sessionFault: Option<string>)
    returns (r: Result<(UserResponse, CookieAction), HttpError>)
    requires db.Valid() && newUserId !in db.users && newSessionId !in db.sessions
    modifies db
    ensures db.Valid()
    ensures |req.password| < MinPasswordLength ==>
              r == Err(PasswordTooShort) && db.users == old(db.users) && db.sessions == old(db.sessions)
    ensures |req.password| >= MinPasswordLength && userFault.Some? ==>
              && r == Err(HttpError(500, RegistrationFailedPrefix + userFault.value))
              && db.users == old(db.users) && db.sessions == old(db.sessions)
    ensures |req.password| >= MinPasswordLength && userFault.None?
            && EmailTaken(old(db.users), Lower(req.email)) ==>
              r == Err(EmailAlreadyRegistered) && db.users == old(db.users) && db.sessions == old(db.sessions)
    ensures |req.password| >= MinPasswordLength && userFault.None?
            && !EmailTaken(old(db.users), Lower(req.email)) ==>
              var user := User(newUserId, Lower(req.email),
                               Security.HashPassword(hasher, req.password, salt), req.fullName, now, now);
              var session := NewSession(newSessionId, newUserId, now, client);
              && db.users == old(db.users)[newUserId := user]
              && (sessionFault.Some? ==>
                    && r == Err(HttpError(500, RegistrationFailedPrefix + sessionFault.value))
                    && db.sessions == old(db.sessions))
              && (sessionFault.None? ==>
                    && r == Ok((ToResponse(user), SessionCookie(session)))
                    && db.sessions == old(db.sessions)[newSessionId := session])
  {
    if |req.password| < MinPasswordLength {
      return Err(PasswordTooShort);
    }
    var passwordHash := Security.HashPassword(hasher, req.password, salt);
    var created := db.CreateUser(req.email, passwordHash, req.fullName, now, newUserId, userFault);
    match created
    case Err(DuplicateKey) =>
      r := Err(EmailAlreadyRegistered);
    case Err(e) =>
      r := Err(HttpError(500, RegistrationFailedPrefix + ErrorText(e)));
    case Ok(user) =>
      ParseIdText(user.id);
      var session := db.CreateSession(IdText(user.id), Security.SessionExpiry(now),
                                      client.host, client.userAgent, now, newSessionId, sessionFault);
      match session
      case Err(e) =>
        r := Err(HttpError(500, RegistrationFailedPrefix + ErrorText(e)));
      case Ok(s) =>
        r := Ok((ToResponse(user), SessionCookie(s)));
  }

  /** POST /auth/login. An unknown email and a wrong password give the same
      401 answer and create nothing; otherwise one new session for that user,
      expiring seven days after `now`, joins the existing ones. A failing
      email lookup or session write escapes the handler as a 500. */
  method Login(db: AuthDatabase, req: LoginRequest, hasher: Security.PasswordHasher,
               client: Client, now: int, newSessionId: ObjectId,
               lookupFault: Option<string>, sessionFault: Option<string>)
    returns (r: Result<(UserResponse, CookieAction), HttpError>)
    requires db.Valid() && newSessionId !in db.sessions
    modifies db`sessions
    ensures db.Valid() && db.users == old(db.users)
    ensures lookupFault.Some? ==> r == Err(InternalServerError) && db.sessions == old(db.sessions)
    ensures lookupFault.None? ==>
            var found := FindByEmail(old(db.users), Lower(req.email));
            && (found.None? || !Security.VerifyPassword(hasher, req.password, found.value.passwordHash) ==>
                  r == Err(InvalidCredentials) && db.sessions == old(db.sessions))
            && (found.Some? && Security.VerifyPassword(hasher, req.password, found.value.passwordHash) ==>
                  var session := NewSession(newSessionId, found.value.id, now, client);
                  && (sessionFault.Some? ==> r == Err(InternalServerError) && db.sessions == old(db.sessions))
                  && (sessionFault.None? ==>
                        && r == Ok((ToResponse(found.value), SessionCookie(session)))
                        && db.sessions == old(db.sessions)[newSessionId := session]))
  {
    var lookup := db.GetUserByEmail(req.email, lookupFault);
    if lookup.Err? {
      return Err(InternalServerError);
    }
    var user := lookup.value;
    if user == None {
      return Err(InvalidCredentials);
    }
    if !Security.VerifyPassword(hasher, req.password, user.value.passwordHash) {
      return Err(InvalidCredentials);
    }
    ParseIdText(user.value.id);
    var session := db.CreateSession(IdText(user.value.id), Security.SessionExpiry(now),
                                    client.host, client.userAgent, now, newSessionId, sessionFault);
    match session
    case Err(_) =>
      r := Err(InternalServerError);
    case Ok(s) =>
      r := Ok((ToResponse(user.value), SessionCookie(s)));
  }

  /** POST /auth/logout. After the guard accepts the cookie, every session of
      that user is deleted (the cookie's own among them) and the cookie is
      cleared; a refused cookie answers with the guard's error. A failed
      delete is swallowed by the store: the answer is the same, the cookie is
      cleared, and every session stays valid. */
  method Logout(db: AuthDatabase, cookie: Option<string>, now: int, faults: GuardFaults,
                deleteFault: Option<string>)
    returns (r: Result<CookieAction, HttpError>)
    requires db.Valid()
    modifies db`sessions
    ensures db.Valid() && db.users == old(db.users)
    ensures var v := GuardVerdict(old(db.users), old(db.sessions), cookie, now, faults);
            && (!v.Authenticated? ==>
                  && r == Err(ErrorOf(v))
                  && db.sessions == (if v.Expired? && faults.expiredDelete.None? then old(db.sessions) - {v.sessionId}
                                     else old(db.sessions)))
            && (v.Authenticated? ==> r == Ok(DeleteCookie(SessionCookieName, true, false, "lax")))
            && (v.Authenticated? && deleteFault.None? ==>
                  && db.sessions == old(db.sessions) - SessionsOf(old(db.sessions), v.user.id)
                  && ParseObjectId(cookie.value).value !in db.sessions)
            && (v.Authenticated? && deleteFault.Some? ==>
                  && db.sessions == old(db.sessions)
                  && ParseObjectId(cookie.value).value in db.sessions)
  {
    var current := GetCurrentUser(db, cookie, now, faults);
    if current.Err? {
      return Err(current.error);
    }
    ParseIdText(current.value.id);
    var _ := db.DeleteUserSessions(IdText(current.value.id), deleteFault);
    r := Ok(DeleteCookie(SessionCookieName, true, false, "lax"));
  }

  /** GET /auth/me: the guard's user, as a response without the hash. */
  method GetMe(db: AuthDatabase, cookie: Option<string>, now: int, faults: GuardFaults)
    returns (r: Result<UserResponse, HttpError>)
    requires db.Valid()
    modifies db`sessions
    ensures db.Valid() && db.users == old(db.users)
    ensures var v := GuardVerdict(old(db.users), old(db.sessions), cookie, now, faults);
            && r == (if v.Authenticated? then Ok(ToResponse(v.user)) else Err(ErrorOf(v)))
            && db.sessions == (if v.Expired? && faults.expiredDelete.None? then old(db.sessions) - {v.sessionId}
                               else old(db.sessions))
  {
    var current := GetCurrentUser(db, cookie, now, faults);
    r := if current.Ok? then Ok(ToResponse(current.value)) else Err(current.error);
  }

  /** POST /auth/cleanup-sessions: reports how many expired sessions the
      sweep removed; a failing sweep escapes as a 500 and removes nothing. */
  method CleanupSessions(db: AuthDatabase, now: int, fault: Option<string>)
    returns (r: Result<nat, HttpError>)
    requires db.Valid()
    modifies db`sessions
    ensures db.Valid() && db.users == old(db.users)
    ensures fault.Some? ==> r == Err(InternalServerError) && db.sessions == old(db.sessions)
    ensures fault.None? ==>
              && db.sessions == old(db.sessions) - ExpiredBefore(old(db.sessions), now)
              && r == Ok(|ExpiredBefore(old(db.sessions), now)|)
  {
    var swept := db.CleanupExpiredSessions(now, fault);
    r := if swept.Ok? then Ok(swept.value) else Err(InternalServerError);
  }

  /** A client of the handlers: with a hasher that keeps its promise, a
      freshly registered account can log in at once, under any spelling of
      its email that lower-cases to the same address, and then holds two
      live sessions. */
  method RegisterThenLogin(db: AuthDatabase, email: string, loginEmail: string, password: string,
                           hasher: Security.PasswordHasher, salt: string, client: Client, now: int,
                           userId: ObjectId, firstSession: ObjectId, secondSession: ObjectId)
    returns (registered: Result<(UserResponse, CookieAction), HttpError>,
             loggedIn: Result<(UserResponse, CookieAction), HttpError>)
    requires db.Valid() && Security.Sound(hasher)
    requires userId !in db.users && firstSession !in db.sessions && secondSession !in db.sessions
    requires firstSession != secondSession
    requires |password| >= MinPasswordLength && Lower(loginEmail) == Lower(email)
    requires !EmailTaken(db.users, Lower(email))
    modifies db
    ensures registered.Ok? && loggedIn.Ok?
    ensures registered.value.0 == loggedIn.value.0
    ensures firstSession in db.sessions && secondSession in db.sessions
    ensures db.sessions[firstSession].userId == userId && db.sessions[secondSession].userId == userId
  {
    registered := Register(db, RegisterRequest(email, password, None), hasher, salt, client, now,
                           userId, firstSession, None, None);
    var user := db.users[userId];
    assert user.email == Lower(email);
    assert FindByEmail(db.users, Lower(loginEmail)) == Some(user) by {
      assert EmailTaken(db.users, Lower(loginEmail));
    }
    Security.VerifyHashed(hasher, password, salt);
    loggedIn := Login(db, LoginRequest(loginEmail, password), hasher, client, now, secondSession, None, None);
  }
}
