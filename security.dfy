/** Password hashing and session-time helpers of the authentication service.
    The clock is the parameter `now` (seconds), the random source is a
    parameter holding the bytes it produced, and bcrypt is an abstract pair
    of functions. */
module Security {
  import opened Basics
  import Hex

  const SecondsPerDay: int := 24 * 60 * 60
  /** Default lifetime of a session, in days. */
  const DefaultSessionDays: int := 7
  /** Number of random bytes behind a session token. */
  const TokenBytes: nat := 32

  /** bcrypt as seen by the service: `hash(password, salt)` and
      `verify(password, storedHash)`. */
  datatype PasswordHasher = PasswordHasher(
    hash: (string, string) -> string,
    verify: (string, string) -> bool)

  /** The documented promise of the pair: a password verifies against any
      hash made from it, whatever salt was drawn. */
  ghost predicate Sound(h: PasswordHasher)
  {
    forall password, salt :: h.verify(password, h.hash(password, salt))
  }

  /** hash_password: bcrypt with a freshly drawn salt. */
  function HashPassword(h: PasswordHasher, password: string, salt: string): string
  {
    h.hash(password, salt)
  }

  /** verify_password */
  function VerifyPassword(h: PasswordHasher, password: string, passwordHash: string): bool
  {
    h.verify(password, passwordHash)
  }

  /** A sound pair accepts the password a hash was made from. */
  lemma VerifyHashed(h: PasswordHasher, password: string, salt: string)
    requires Sound(h)
    ensures VerifyPassword(h, password, HashPassword(h, password, salt))
  {
  }

  /** generate_session_id: `token_hex` of 32 random bytes. */
  function GenerateSessionId(random: seq<Hex.byte>): (id: string)
    requires |random| == TokenBytes
    ensures |id| == 2 * TokenBytes
    ensures forall i :: 0 <= i < |id| ==> Hex.IsLowerHexDigit(id[i])
    ensures Hex.Decode(id) == Some(random)
  {
    Hex.EncodeShape(random);
    Hex.DecodeEncode(random);
    Hex.Encode(random)
  }

  /** get_session_expiry: `days` days after `now`. */
  function SessionExpiry(now: int, days: int := DefaultSessionDays): (expiresAt: int)
    ensures days >= 0 ==> now <= expiresAt
    ensures expiresAt - now == days * SecondsPerDay
  {
    now + days * SecondsPerDay
  }

  /** is_session_expired: strictly after the expiry instant. */
  predicate IsSessionExpired(expiresAt: int, now: int)
  {
    now > expiresAt
  }

  /** A session made with a non-negative lifetime is not expired when it is
      created, and is still valid at exactly its expiry instant. */
  lemma FreshSessionIsValid(now: int, days: int)
    requires days >= 0
    ensures !IsSessionExpired(SessionExpiry(now, days), now)
    ensures !IsSessionExpired(SessionExpiry(now, days), SessionExpiry(now, days))
    ensures IsSessionExpired(SessionExpiry(now, days), SessionExpiry(now, days) + 1)
  {
  }

  /** Once expired, a session stays expired as time goes on. */
  lemma ExpiryIsPermanent(expiresAt: int, now: int, later: int)
    requires IsSessionExpired(expiresAt, now) && now <= later
    ensures IsSessionExpired(expiresAt, later)
  {
  }
}
