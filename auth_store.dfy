/** The authentication store: a `users` collection keyed by ObjectId with a
    unique, lower-cased `email`, and a `sessions` collection whose documents
    carry `user_id` and `expires_at`. MongoDB is modelled by what its
    collections hold: two maps that the methods update in place. */
module AuthStore {
  import opened Basics
  import Hex
  import Security

  /** A BSON ObjectId: twelve bytes. */
  type ObjectId = b: seq<Hex.byte> | |b| == 12 witness [0, 0, 0, 0, 0, 0, 0, 0, 0, 0, 0, 0]

  /** `str(oid)`: 24 lower-case hexadecimal digits. */
  function IdText(id: ObjectId): (t: string)
    ensures |t| == 24
    ensures forall i :: 0 <= i < |t| ==> Hex.IsLowerHexDigit(t[i])
  {
    Hex.EncodeShape(id);
    Hex.Encode(id)
  }

  /** `ObjectId(text)`: a 24-digit hexadecimal string (either case) names an
      id; any other text makes the constructor raise, modelled as None. */
  function ParseObjectId(t: string): (r: Option<ObjectId>)
    ensures r.Some? <==> |t| == 24 && forall i :: 0 <= i < |t| ==> Hex.DigitValue(t[i]).Some?
    ensures r.Some? ==> Hex.Decode(t) == Some(r.value)
  {
    Hex.DecodeDefined(t);
    if |t| != 24 then None
    else match Hex.Decode(t)
      case Some(b) => Some(b)
      case None => None
  }

  /** The text of an id always reads back as that id, so the service's
      `ObjectId(str(oid))` round trips never fail. */
  lemma {:induction false} ParseIdText(id: ObjectId)
    ensures ParseObjectId(IdText(id)) == Some(id)
  {
    Hex.DecodeEncode(id);
  }

  /** Two ids with the same text are the same id. */
  lemma IdTextInjective(a: ObjectId, b: ObjectId)
    requires IdText(a) == IdText(b)
    ensures a == b
  {
    ParseIdText(a);
    ParseIdText(b);
  }

  datatype User = User(
    id: ObjectId,
    email: string,
    passwordHash: string,
    fullName: Option<string>,
    createdAt: int,
    updatedAt: int)

  datatype Session = Session(
    id: ObjectId,
    userId: ObjectId,
    createdAt: int,
    expiresAt: int,
    ipAddress: Option<string>,
    userAgent: Option<string>)

  /** What a collection operation can raise. */
  datatype DbError =
    | DuplicateKey                 // the unique index on `email` refused the insert
    | InvalidId(text: string)      // `ObjectId(text)` refused its argument
    | ServerError(message: string) // the driver or server failed the operation

  /** The message `str(e)` of an error. */
  function ErrorText(e: DbError): string
  {
    match e
    case DuplicateKey => "E11000 duplicate key error collection: users index: email_1"
    case InvalidId(t) => "'" + t + "' is not a valid ObjectId, it must be a 12-byte input or a 24-character hex string"
    case ServerError(m) => m
  }

  /** Some user holds this (already lower-cased) email. */
  predicate EmailTaken(users: map<ObjectId, User>, email: string)
  {
    exists id :: id in users && users[id].email == email
  }

  /** The user stored under this (already lower-cased) email, if any. */
  ghost function FindByEmail(users: map<ObjectId, User>, email: string): (r: Option<User>)
    ensures r.Some? <==> EmailTaken(users, email)
    ensures r.Some? ==> r.value in users.Values && r.value.email == email
  {
    if EmailTaken(users, email) then
      var id :| id in users && users[id].email == email; Some(users[id])
    else None
  }

  /** The ids of the sessions that belong to one user. */
  function SessionsOf(sessions: map<ObjectId, Session>, userId: ObjectId): set<ObjectId>
  {
    set k | k in sessions && sessions[k].userId == userId
  }

  /** The ids of the sessions matched by `{"expires_at": {"$lt": now}}`. */
  function ExpiredBefore(sessions: map<ObjectId, Session>, now: int): set<ObjectId>
  {
    set k | k in sessions && sessions[k].expiresAt < now
  }

  /** The cleanup filter and `is_session_expired` draw the same strict
      boundary: a session is swept exactly when it counts as expired. */
  lemma CleanupMatchesExpiry(sessions: map<ObjectId, Session>, now: int, k: ObjectId)
    requires k in sessions
    ensures k in ExpiredBefore(sessions, now) <==> Security.IsSessionExpired(sessions[k].expiresAt, now)
  {
  }

  /** What the collections and their indexes guarantee: documents are stored
      under their own `_id`, emails are stored lower-cased, and the unique
      index allows one user per email. */
  ghost predicate WellFormed(users: map<ObjectId, User>, sessions: map<ObjectId, Session>)
  {
    && (forall id :: id in users ==> users[id].id == id && IsLower(users[id].email))
    && (forall a, b :: a in users && b in users && users[a].email == users[b].email ==> a == b)
    && (forall id :: id in sessions ==> sessions[id].id == id)
  }

  class AuthDatabase {
    var users: map<ObjectId, User>
    var sessions: map<ObjectId, Session>

    ghost predicate Valid()
      reads this
    {
      WellFormed(users, sessions)
    }

    /** Opens the store on the collections as they are found. */
    constructor (users0: map<ObjectId, User>, sessions0: map<ObjectId, Session>)
      requires WellFormed(users0, sessions0)
      ensures Valid() && users == users0 && sessions == sessions0
    {
      users := users0;
      sessions := sessions0;
    }

    /** create_user: inserts a user under the id the driver allocated,
        storing the email lower-cased. `fault`, here and below, stands for a
        failure of the driver or server. */
    method CreateUser(email: string, passwordHash: string, fullName: Option<string>,
                      now: int, newId: ObjectId, fault: Option<string>)
      returns (r: Result<User, DbError>)
      requires Valid() && newId !in users
      modifies this`users
      ensures Valid()
      ensures fault.Some? ==> r == Err(ServerError(fault.value)) && users == old(users)
      ensures fault.None? && EmailTaken(old(users), Lower(email)) ==>
                r == Err(DuplicateKey) && users == old(users)
      ensures fault.None? && !EmailTaken(old(users), Lower(email)) ==>
                && r == Ok(User(newId, Lower(email), passwordHash, fullName, now, now))
                && users == old(users)[newId := r.value]
    {
      if fault.Some? {
        return Err(ServerError(fault.value));
      }
      var stored := Lower(email);
      if EmailTaken(users, stored) {
        return Err(DuplicateKey);
      }
      LowerIsIdempotent(email);
      var user := User(newId, stored, passwordHash, fullName, now, now);
      users := users[newId := user];
      r := Ok(user);
    }

    /** get_user_by_email: lower-cases its argument, so the lookup is
        case-insensitive against the stored emails. A failure is not caught
        and reaches the caller. */
    method GetUserByEmail(email: string, fault: Option<string>) returns (r: Result<Option<User>, DbError>)
      requires Valid()
      ensures fault.Some? ==> r == Err(ServerError(fault.value))
      ensures fault.None? ==> r.Ok? && r.value == FindByEmail(users, Lower(email))
      ensures fault.None? ==> (r.value.Some? <==> EmailTaken(users, Lower(email)))
      ensures r.Ok? && r.value.Some? ==>
                && r.value.value.id in users && users[r.value.value.id] == r.value.value
                && r.value.value.email == Lower(email)
    {
      if fault.Some? {
        return Err(ServerError(fault.value));
      }
      var stored := Lower(email);
      if EmailTaken(users, stored) {
        var id :| id in users && users[id].email == stored;
        r := Ok(Some(users[id]));
      } else {
        r := Ok(None);
      }
    }

    /** get_user_by_id: None for unknown ids, for text that is not an
        ObjectId, and when the lookup fails; it never raises. */
    method GetUserById(idText: string, fault: Option<string>) returns (r: Option<User>)
      requires Valid()
      ensures r.Some? ==> ParseObjectId(idText) == Some(r.value.id)
                          && r.value.id in users && users[r.value.id] == r.value
      ensures r.None? <==> fault.Some? || ParseObjectId(idText).None? || ParseObjectId(idText).value !in users
    {
      match ParseObjectId(idText)
      case None => r := None;
      case Some(id) =>
        r := if fault.None? && id in users then Some(users[id]) else None;
    }

    /** create_session: inserts a session for `user_id` (which must be an
        ObjectId's text, else the constructor raises before any write).
        Existing sessions are left as they were. */
    method CreateSession(userIdText: string, expiresAt: int, ipAddress: Option<string>,
                         userAgent: Option<string>, now: int, newId: ObjectId,
                         fault: Option<string>)
      returns (r: Result<Session, DbError>)
      requires Valid() && newId !in sessions
      modifies this`sessions
      ensures Valid()
      ensures r.Err? ==> sessions == old(sessions)
      ensures ParseObjectId(userIdText).None? ==> r == Err(InvalidId(userIdText))
      ensures ParseObjectId(userIdText).Some? && fault.Some? ==> r == Err(ServerError(fault.value))
      ensures ParseObjectId(userIdText).Some? && fault.None? ==>
                && r == Ok(Session(newId, ParseObjectId(userIdText).value, now, expiresAt,
                                   ipAddress, userAgent))
                && sessions == old(sessions)[newId := r.value]
    {
      match ParseObjectId(userIdText)
      case None =>
        r := Err(InvalidId(userIdText));
      case Some(userId) =>
        if fault.Some? {
          r := Err(ServerError(fault.value));
        } else {
          var s := Session(newId, userId, now, expiresAt, ipAddress, userAgent);
          sessions := sessions[newId := s];
          r := Ok(s);
        }
    }

    /** get_session: None for unknown ids, malformed text, and when the
        lookup fails; never raises. */
    method GetSession(idText: string, fault: Option<string>) returns (r: Option<Session>)
      requires Valid()
      ensures r.Some? ==> ParseObjectId(idText) == Some(r.value.id)
                          && r.value.id in sessions && sessions[r.value.id] == r.value
      ensures r.None? <==> fault.Some? || ParseObjectId(idText).None? || ParseObjectId(idText).value !in sessions
    {
      match ParseObjectId(idText)
      case None => r := None;
      case Some(id) =>
        r := if fault.None? && id in sessions then Some(sessions[id]) else None;
    }

    /** delete_session: true exactly when a session with that id existed and
        the delete went through; only that session is removed. A failed
        delete answers false, like a missing session. */
    method DeleteSession(idText: string, fault: Option<string>) returns (deleted: bool)
      requires Valid()
      modifies this`sessions
      ensures Valid()
      ensures deleted <==> fault.None? && ParseObjectId(idText).Some? && ParseObjectId(idText).value in old(sessions)
      ensures fault.None? && ParseObjectId(idText).Some? ==> sessions == old(sessions) - {ParseObjectId(idText).value}
      ensures fault.Some? || ParseObjectId(idText).None? ==> sessions == old(sessions)
    {
      match ParseObjectId(idText)
      case None => deleted := false;
      case Some(id) =>
        if fault.Some? {
          deleted := false;
        } else {
          deleted := id in sessions;
          sessions := sessions - {id};
        }
    }

    /** delete_user_sessions: removes exactly the sessions of that user and
        returns how many; 0 and no change for text that is not an id and
        when the delete fails. */
    method DeleteUserSessions(userIdText: string, fault: Option<string>) returns (count: nat)
      requires Valid()
      modifies this`sessions
      ensures Valid()
      ensures fault.Some? || ParseObjectId(userIdText).None? ==> count == 0 && sessions == old(sessions)
      ensures fault.None? && ParseObjectId(userIdText).Some? ==>
                var gone := SessionsOf(old(sessions), ParseObjectId(userIdText).value);
                && sessions == old(sessions) - gone
                && count == |gone|
    {
      match ParseObjectId(userIdText)
      case None => count := 0;
      case Some(userId) =>
        if fault.Some? {
          count := 0;
        } else {
          var gone := SessionsOf(sessions, userId);
          sessions := sessions - gone;
          count := |gone|;
        }
    }

    /** cleanup_expired_sessions: removes exactly the sessions whose expiry
        lies strictly before `now` and returns how many. A failure is not
        caught and changes nothing. */
    method CleanupExpiredSessions(now: int, fault: Option<string>) returns (r: Result<nat, DbError>)
      requires Valid()
      modifies this`sessions
      ensures Valid()
      ensures fault.Some? ==> r == Err(ServerError(fault.value)) && sessions == old(sessions)
      ensures fault.None? ==>
                && sessions == old(sessions) - ExpiredBefore(old(sessions), now)
                && r == Ok(|ExpiredBefore(old(sessions), now)|)
                && forall k :: k in sessions ==> !Security.IsSessionExpired(sessions[k].expiresAt, now)
    {
      if fault.Some? {
        return Err(ServerError(fault.value));
      }
      var gone := ExpiredBefore(sessions, now);
      sessions := sessions - gone;
      r := Ok(|gone|);
    }
  }
}
