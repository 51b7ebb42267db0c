/**
 * `GET /api/admin/verify`: the admin client's check of a stored token. It
 * reads no table: the answer is the request gate's verdict, as 401 or as the
 * decoded token payload.
 */
module VerifyRoute {
  import opened Wrappers
  import opened Http
  import Auth

  function Get(lib: Auth.JwtLibrary, secret: string, authorization: Option<string>, now: int): (r: Response<Auth.Claims>)
    ensures r.status == Ok || r.status == Unauthorized
    ensures r.status == Unauthorized <==> !Auth.GetAuthFromRequest(lib, secret, authorization, now).isAuthenticated
    ensures r.status == Unauthorized ==> r.body == Failure(UnauthorizedMessage)
    ensures r.status == Ok ==> r.body.Success? && Some(r.body.value) == Auth.GetAuthFromRequest(lib, secret, authorization, now).user
  {
    var auth := Auth.GetAuthFromRequest(lib, secret, authorization, now);
    if !auth.isAuthenticated then JsonError(Unauthorized, UnauthorizedMessage)
    else JsonOk(auth.user.value)
  }

  /** A token from `generateToken`, sent as `Bearer <token>` within 24 hours, is answered with its own user. */
  lemma FreshTokenVerifies(lib: Auth.JwtLibrary, secret: string, user: Auth.User, issued: int, now: int)
    requires Auth.SignedTokensDecode(lib)
    requires Auth.Seconds(now) < Auth.Seconds(issued) + Auth.TokenLifetime
    ensures Get(lib, secret, Some(Auth.BearerPrefix + Auth.GenerateToken(lib, secret, user, issued)), now).status == Ok
    ensures Get(lib, secret, Some(Auth.BearerPrefix + Auth.GenerateToken(lib, secret, user, issued)), now).body.value.user == user
  {
    Auth.LoginTokenAuthenticates(lib, secret, user, issued, now);
  }

  /** Once 24 hours (in milliseconds) have passed the same token is refused. */
  lemma ExpiredTokenRefused(lib: Auth.JwtLibrary, secret: string, user: Auth.User, issued: int, now: int)
    requires Auth.SignedTokensDecode(lib)
    requires now >= issued + Auth.TokenLifetime * 1000
    ensures Get(lib, secret, Some(Auth.BearerPrefix + Auth.GenerateToken(lib, secret, user, issued)), now).status == Unauthorized
  {
    var token := Auth.GenerateToken(lib, secret, user, issued);
    Auth.BearerRoundTrip(lib, secret, token, now);
    Auth.TokenValidFor24Hours(lib, secret, user, issued, now);
  }
}
