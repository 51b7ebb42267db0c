/**
 * Authentication helpers: password hashing with a fixed bcrypt cost, JSON Web
 * Tokens (RFC 7519) that expire 24 hours after issue, and the bearer-token
 * gate of the admin API (section 2.1 of RFC 6750). The bcrypt and JWT
 * libraries are parameters: only the contract the code relies on is stated
 * about them.
 */
module Auth {
  import opened Wrappers
  import Text

  // ---------------------------------------------------------------- passwords

  /** The bcrypt library: `hash(password, rounds)` and `compare(password, hash)`. */
  datatype Bcrypt = Bcrypt(hash: (string, nat) -> string, compare: (string, string) -> bool)

  /** What the code expects of bcrypt: a password matches every hash made from it. */
  ghost predicate HashesVerify(b: Bcrypt) {
    forall password, rounds :: b.compare(password, b.hash(password, rounds))
  }

  const SaltRounds: nat := 12

  function HashPassword(b: Bcrypt, password: string): string {
    b.hash(password, SaltRounds)
  }

  function VerifyPassword(b: Bcrypt, password: string, hashed: string): bool {
    b.compare(password, hashed)
  }

  /** A password verifies against its own stored hash. */
  lemma HashedPasswordVerifies(b: Bcrypt, password: string)
    requires HashesVerify(b)
    ensures VerifyPassword(b, password, HashPassword(b, password))
  {
  }

  // ---------------------------------------------------------------- tokens

  /** The signed payload: the admin user's claims plus the registered `iat` and `exp` claims (seconds). */
  datatype User = User(id: string, email: string, name: string, role: string)
  datatype Claims = Claims(user: User, iat: int, exp: int)

  /**
   * The JWT library under one secret: `sign` produces the compact
   * serialisation, `decode` checks the signature and returns the claims, or
   * `None` for a malformed or forged token.
   */
  datatype JwtLibrary = JwtLibrary(sign: (Claims, string) -> string, decode: (string, string) -> Option<Claims>)

  /** What the code expects of the library: a token it signed decodes to what it signed. */
  ghost predicate SignedTokensDecode(lib: JwtLibrary) {
    forall c, secret :: lib.decode(lib.sign(c, secret), secret) == Some(c)
  }

  /** `expiresIn: '24h'`, in seconds. */
  const TokenLifetime: nat := 24 * 60 * 60

  /**
   * The library's clock: the millisecond clock `now` in whole seconds,
   * `Math.floor(now / 1000)` (Dafny's division by a positive divisor rounds down).
   */
  function Seconds(now: int): int {
    now / 1000
  }

  /** Whole seconds are monotone in the millisecond clock. */
  lemma SecondsMonotone(a: int, b: int)
    requires a <= b
    ensures Seconds(a) <= Seconds(b)
  {
  }

  /** `k` whole seconds later on the millisecond clock is `k` seconds more. */
  lemma SecondsShift(a: int, k: int)
    ensures Seconds(a + k * 1000) == Seconds(a) + k
  {
  }

  /** `generateToken` at millisecond time `now`: the user's claims, issued now, expiring 24 hours later. */
  function GenerateToken(lib: JwtLibrary, secret: string, user: User, now: int): string {
    lib.sign(Claims(user, Seconds(now), Seconds(now) + TokenLifetime), secret)
  }

  /**
   * `verifyToken`: the decoded claims, or `None` in place of every error the
   * library throws — a bad token, a bad signature, or an expired one (the
   * current second at or past `exp`). `now` is the millisecond clock.
   */
  function VerifyToken(lib: JwtLibrary, secret: string, token: string, now: int): (r: Option<Claims>)
    ensures r.Some? <==> lib.decode(token, secret).Some? && Seconds(now) < lib.decode(token, secret).value.exp
    ensures r.Some? ==> r == lib.decode(token, secret)
  {
    match lib.decode(token, secret)
    case None => None
    case Some(c) => if Seconds(now) >= c.exp then None else Some(c)
  }

  /**
   * A generated token is accepted until the second 24 hours after the second
   * of issue, and carries the user it was made for: in milliseconds, it is
   * still accepted 23:59:59 after issue and refused from 24 hours after.
   */
  lemma TokenValidFor24Hours(lib: JwtLibrary, secret: string, user: User, issued: int, now: int)
    requires SignedTokensDecode(lib)
    ensures VerifyToken(lib, secret, GenerateToken(lib, secret, user, issued), now).Some?
      <==> Seconds(now) < Seconds(issued) + TokenLifetime
    ensures VerifyToken(lib, secret, GenerateToken(lib, secret, user, issued), now).Some? ==>
      VerifyToken(lib, secret, GenerateToken(lib, secret, user, issued), now).value.user == user
    ensures now <= issued + (TokenLifetime - 1) * 1000 ==>
      VerifyToken(lib, secret, GenerateToken(lib, secret, user, issued), now).Some?
    ensures now >= issued + TokenLifetime * 1000 ==>
      VerifyToken(lib, secret, GenerateToken(lib, secret, user, issued), now).None?
  {
    var c := Claims(user, Seconds(issued), Seconds(issued) + TokenLifetime);
    assert lib.decode(lib.sign(c, secret), secret) == Some(c);
    if now <= issued + (TokenLifetime - 1) * 1000 {
      SecondsMonotone(now, issued + (TokenLifetime - 1) * 1000);
      SecondsShift(issued, TokenLifetime - 1);
    }
    if now >= issued + TokenLifetime * 1000 {
      SecondsMonotone(issued + TokenLifetime * 1000, now);
      SecondsShift(issued, TokenLifetime);
    }
  }

  // ---------------------------------------------------------------- the request gate

  const BearerPrefix: string := "Bearer "

  datatype AuthResult = AuthResult(isAuthenticated: bool, user: Option<Claims>)

  /**
   * `getAuthFromRequest` on the request's `authorization` header: the header
   * must start with exactly `Bearer ` (case-sensitive), the token is the rest,
   * and the result is authenticated iff the token verifies.
   */
  function GetAuthFromRequest(lib: JwtLibrary, secret: string, authorization: Option<string>, now: int): (r: AuthResult)
    ensures r.isAuthenticated <==> r.user.Some?
    ensures r.isAuthenticated <==>
      authorization.Some? && Text.StartsWith(authorization.value, BearerPrefix)
      && VerifyToken(lib, secret, authorization.value[|BearerPrefix|..], now).Some?
    ensures r.isAuthenticated ==> r.user == VerifyToken(lib, secret, authorization.value[|BearerPrefix|..], now)
  {
    if authorization.None? || !Text.StartsWith(authorization.value, BearerPrefix) then
      AuthResult(false, None)
    else
      var token := authorization.value[7..];
      match VerifyToken(lib, secret, token, now)
      case None => AuthResult(false, None)
      case Some(decoded) => AuthResult(true, Some(decoded))
  }

  /** The header the admin client sends, `Bearer <token>`, hands exactly that token to verification. */
  lemma BearerRoundTrip(lib: JwtLibrary, secret: string, token: string, now: int)
    ensures GetAuthFromRequest(lib, secret, Some(BearerPrefix + token), now).user == VerifyToken(lib, secret, token, now)
  {
    assert (BearerPrefix + token)[..|BearerPrefix|] == BearerPrefix;
    assert (BearerPrefix + token)[|BearerPrefix|..] == token;
  }

  /** The scheme name is matched case-sensitively: `bearer <token>` never authenticates. */
  lemma LowerCaseSchemeRejected(lib: JwtLibrary, secret: string, token: string, now: int)
    ensures !GetAuthFromRequest(lib, secret, Some("bearer " + token), now).isAuthenticated
  {
    assert ("bearer " + token)[0] == 'b';
    assert BearerPrefix[0] == 'B';
  }

  /** A login token sent back as a bearer header authenticates its user for 24 hours. */
  lemma LoginTokenAuthenticates(lib: JwtLibrary, secret: string, user: User, issued: int, now: int)
    requires SignedTokensDecode(lib)
    requires Seconds(now) < Seconds(issued) + TokenLifetime
    ensures GetAuthFromRequest(lib, secret, Some(BearerPrefix + GenerateToken(lib, secret, user, issued)), now).isAuthenticated
    ensures GetAuthFromRequest(lib, secret, Some(BearerPrefix + GenerateToken(lib, secret, user, issued)), now).user.value.user == user
  {
    BearerRoundTrip(lib, secret, GenerateToken(lib, secret, user, issued), now);
    TokenValidFor24Hours(lib, secret, user, issued, now);
  }
}
