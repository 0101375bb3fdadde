/** The request guards of the authentication service: `get_current_user`
    resolves the `juris_session` cookie to a user through an ordered chain of
    checks (cookie, session, expiry, user), and `get_optional_user` turns
    every failure of that chain into "no user". */
module AuthDependencies {
  import opened Basics
  import opened AuthStore
  import Security

  /** An `HTTPException`. */
  datatype HttpError = HttpError(status: int, detail: string)

  const Unauthorized: int := 401
  const NotAuthenticated: HttpError := HttpError(Unauthorized, "Not authenticated")
  const InvalidSession: HttpError := HttpError(Unauthorized, "Invalid session")
  const SessionExpired: HttpError := HttpError(Unauthorized, "Session expired")
  const UserNotFound: HttpError := HttpError(Unauthorized, "User not found")

  /** Which step of the chain decides the request. */
  datatype Verdict =
    | NoCookie
    | UnknownSession
    | Expired(sessionId: ObjectId)
    | MissingUser
    | Authenticated(user: User)

  /** The chain over the store's contents at the time of the request. The
      first check that fails decides; only a request that passes all four
      yields a user, and that user owns the cookie's unexpired session. */
  function Check(users: map<ObjectId, User>, sessions: map<ObjectId, Session>,
                 cookie: Option<string>, now: int): (v: Verdict)
    ensures v.NoCookie? <==> cookie == None || cookie == Some("")
    ensures v.UnknownSession? <==>
              && cookie.Some? && cookie.value != ""
              && (ParseObjectId(cookie.value).None? || ParseObjectId(cookie.value).value !in sessions)
    ensures v.Expired? ==>
              && cookie.Some? && ParseObjectId(cookie.value) == Some(v.sessionId)
              && v.sessionId in sessions
              && Security.IsSessionExpired(sessions[v.sessionId].expiresAt, now)
    ensures v.MissingUser? || v.Authenticated? ==>
              && cookie.Some? && ParseObjectId(cookie.value).Some?
              && ParseObjectId(cookie.value).value in sessions
              && !Security.IsSessionExpired(sessions[ParseObjectId(cookie.value).value].expiresAt, now)
    ensures v.MissingUser? ==> sessions[ParseObjectId(cookie.value).value].userId !in users
    ensures v.Authenticated? ==>
              && sessions[ParseObjectId(cookie.value).value].userId in users
              && v.user == users[sessions[ParseObjectId(cookie.value).value].userId]
  {
    if cookie == None || cookie == Some("") then NoCookie
    else match ParseObjectId(cookie.value)
      case None => UnknownSession
      case Some(sid) =>
        if sid !in sessions then UnknownSession
        else if Security.IsSessionExpired(sessions[sid].expiresAt, now) then Expired(sid)
        else if sessions[sid].userId !in users then MissingUser
        else Authenticated(users[sessions[sid].userId])
  }

  /** The error each failing verdict raises. */
  function ErrorOf(v: Verdict): (e: HttpError)
    requires !v.Authenticated?
    ensures e.status == Unauthorized
    ensures v.Expired? <==> e == SessionExpired
    ensures v.NoCookie? <==> e == NotAuthenticated
    ensures v.UnknownSession? <==> e == InvalidSession
    ensures v.MissingUser? <==> e == UserNotFound
  {
    match v
    case NoCookie => NotAuthenticated
    case UnknownSession => InvalidSession
    case Expired(_) => SessionExpired
    case MissingUser => UserNotFound
  }

  /** A cookie naming an expired session is refused as expired, whatever the
      user table holds: the expiry check runs before the user lookup. */
  lemma ExpiredNeverAuthenticates(users: map<ObjectId, User>, sessions: map<ObjectId, Session>,
                                  sid: ObjectId, now: int)
    requires sid in sessions && Security.IsSessionExpired(sessions[sid].expiresAt, now)
    ensures Check(users, sessions, Some(IdText(sid)), now) == Expired(sid)
  {
    ParseIdText(sid);
  }

  /** A cookie holding the text of a live session of an existing user
      authenticates as that user. */
  lemma LiveSessionAuthenticates(users: map<ObjectId, User>, sessions: map<ObjectId, Session>,
                                 sid: ObjectId, now: int)
    requires sid in sessions && !Security.IsSessionExpired(sessions[sid].expiresAt, now)
    requires sessions[sid].userId in users
    ensures Check(users, sessions, Some(IdText(sid)), now) == Authenticated(users[sessions[sid].userId])
  {
    ParseIdText(sid);
  }

  /** The store failures one guard run can meet: the session lookup, the
      delete of an expired session, and the user lookup. The store swallows
      each of them. */
  datatype GuardFaults = GuardFaults(sessionLookup: Option<string>, expiredDelete: Option<string>,
                                     userLookup: Option<string>)

  const NoFaults: GuardFaults := GuardFaults(None, None, None)

  /** What a lookup sees of a collection: nothing at all when it fails. */
  function Visible<K, V>(m: map<K, V>, fault: Option<string>): (seen: map<K, V>)
    ensures fault.None? ==> seen == m
    ensures fault.Some? ==> seen == map[]
  {
    if fault.Some? then map[] else m
  }

  /** The guard's verdict on a store that may fail: the chain runs over what
      the lookups saw. */
  function GuardVerdict(users: map<ObjectId, User>, sessions: map<ObjectId, Session>,
                        cookie: Option<string>, now: int, faults: GuardFaults): (v: Verdict)
    ensures faults == NoFaults ==> v == Check(users, sessions, cookie, now)
  {
    Check(Visible(users, faults.userLookup), Visible(sessions, faults.sessionLookup), cookie, now)
  }

  /** A failed session lookup is answered "Invalid session" for any cookie,
      and a failed user lookup "User not found" for any live session: an
      outage is reported as a missing document and never authenticates. */
  lemma OutageLooksLikeMissing(users: map<ObjectId, User>, sessions: map<ObjectId, Session>,
                               cookie: string, now: int, faults: GuardFaults)
    requires cookie != ""
    ensures faults.sessionLookup.Some? ==>
              ErrorOf(GuardVerdict(users, sessions, Some(cookie), now, faults)) == InvalidSession
    ensures faults.sessionLookup.None? && faults.userLookup.Some? ==>
              var sid := ParseObjectId(cookie);
              sid.Some? && sid.value in sessions && !Security.IsSessionExpired(sessions[sid.value].expiresAt, now)
              ==> ErrorOf(GuardVerdict(users, sessions, Some(cookie), now, faults)) == UserNotFound
    ensures GuardVerdict(users, sessions, Some(cookie), now, faults).Authenticated? ==>
              faults.sessionLookup.None? && faults.userLookup.None?
  {
  }

  /** get_current_user. Users never change; the sessions change only when an
      expired session is deleted (and only it) before "Session expired" is
      raised, which a failed delete skips. */
  method GetCurrentUser(db: AuthDatabase, cookie: Option<string>, now: int, faults: GuardFaults)
    returns (r: Result<User, HttpError>)
    requires db.Valid()
    modifies db`sessions
    ensures db.Valid() && db.users == old(db.users)
    ensures var v := GuardVerdict(old(db.users), old(db.sessions), cookie, now, faults);
            && (v.Authenticated? ==> r == Ok(v.user))
            && (!v.Authenticated? ==> r == Err(ErrorOf(v)))
            && db.sessions == (if v.Expired? && faults.expiredDelete.None? then old(db.sessions) - {v.sessionId}
                               else old(db.sessions))
  {
    if cookie == None || cookie == Some("") {
      return Err(NotAuthenticated);
    }
    var session := db.GetSession(cookie.value, faults.sessionLookup);
    if session == None {
      return Err(InvalidSession);
    }
    if Security.IsSessionExpired(session.value.expiresAt, now) {
      var _ := db.DeleteSession(cookie.value, faults.expiredDelete);
      return Err(SessionExpired);
    }
    ParseIdText(session.value.userId);
    var user := db.GetUserById(IdText(session.value.userId), faults.userLookup);
    if user == None {
      return Err(UserNotFound);
    }
    r := Ok(user.value);
  }

  /** get_optional_user: None wherever get_current_user raises and the same
      user otherwise; the deletion of an expired session still happens. */
  method GetOptionalUser(db: AuthDatabase, cookie: Option<string>, now: int, faults: GuardFaults)
    returns (r: Option<User>)
    requires db.Valid()
    modifies db`sessions
    ensures db.Valid() && db.users == old(db.users)
    ensures var v := GuardVerdict(old(db.users), old(db.sessions), cookie, now, faults);
            && r == (if v.Authenticated? then Some(v.user) else None)
            && db.sessions == (if v.Expired? && faults.expiredDelete.None? then old(db.sessions) - {v.sessionId}
                               else old(db.sessions))
  {
    if cookie == None || cookie == Some("") {
      return None;
    }
    var outcome := GetCurrentUser(db, cookie, now, faults);
    r := if outcome.Ok? then Some(outcome.value) else None;
  }
}
