/**
 * The admin area's session: the token kept in local storage under
 * `admin-token`, the signed-in user, the loading flag, and what the layout
 * renders. Server answers are parameters of the handlers.
 */
module AdminLayout {
  import opened Wrappers
  import opened Http
  import Auth
  import VerifyRoute

  const TokenKey: string := "admin-token"
  const AdminRoute: string := "/admin"
  const LoginFailedMessage: string := "Login failed"
  const OutsideProviderMessage: string := "useAuth must be used within AuthProvider"

  /** What `POST /api/admin/login` answered: a token and user, or a non-ok status with an optional `error`. */
  datatype LoginAnswer = Accepted(token: string, user: Auth.User) | Rejected(error: Option<string>)

  /** What the mount-time check of a stored token met: a JSON answer, or a failed request. */
  datatype CheckAnswer = Answered(response: Response<Auth.Claims>) | NetworkError

  /** The user a verify answer carries: `data.user` of a 200 answer, nothing otherwise. */
  function AnsweredUser(a: CheckAnswer): (u: Option<Auth.User>)
    ensures u.Some? <==> a.Answered? && a.response.body.Success?
  {
    if a.Answered? && a.response.body.Success? then Some(a.response.body.value.user) else None
  }

  /** The message a rejected login throws: the server's `error`, or the default when it is missing or empty. */
  function LoginError(error: Option<string>): (m: string)
    ensures m != ""
    ensures error.Some? && error.value != "" ==> m == error.value
  {
    if error.Some? && error.value != "" then error.value else LoginFailedMessage
  }

  datatype View = Spinner | LoginScreen | Dashboard

  /** `useAuth`: the provider's value, or the error thrown outside a provider. */
  function UseAuth<T>(context: Option<T>): (r: Result<T, string>)
    ensures r.Success? <==> context.Some?
    ensures r.Success? ==> r.value == context.value
    ensures r.Failure? ==> r.error == OutsideProviderMessage
  {
    match context
    case Some(c) => Success(c)
    case None => Failure(OutsideProviderMessage)
  }

  class Session {
    var storage: map<string, string>
    var user: Option<Auth.User>
    var isLoading: bool
    var route: Option<string>

    constructor (storage: map<string, string>)
      ensures this.storage == storage && user == None && isLoading && route == None
    {
      this.storage := storage;
      user := None;
      isLoading := true;
      route := None;
    }

    /** The layout's choice: a spinner while loading, then the login form iff nobody is signed in. */
    function Render(): (v: View)
      reads this
      ensures isLoading <==> v == Spinner
      ensures !isLoading ==> (v == LoginScreen <==> user.None?)
    {
      if isLoading then Spinner else if user.None? then LoginScreen else Dashboard
    }

    /**
     * `login`: an accepted answer stores the token and signs the user in; a
     * rejected one throws and changes nothing.
     */
    method Login(answer: LoginAnswer) returns (thrown: Option<string>)
      modifies this
      ensures answer.Accepted? ==>
        thrown == None && storage == old(storage)[TokenKey := answer.token] && user == Some(answer.user)
      ensures answer.Rejected? ==>
        thrown == Some(LoginError(answer.error)) && storage == old(storage) && user == old(user)
      ensures isLoading == old(isLoading) && route == old(route)
    {
      match answer {
        case Rejected(error) =>
          thrown := Some(LoginError(error));
        case Accepted(token, u) =>
          storage := storage[TokenKey := token];
          user := Some(u);
          thrown := None;
      }
    }

    /** `logout`: forgets the token and the user and goes back to the admin entry page. */
    method Logout()
      modifies this
      ensures storage == old(storage) - {TokenKey} && TokenKey !in storage
      ensures user == None && route == Some(AdminRoute)
      ensures isLoading == old(isLoading)
      ensures !isLoading ==> Render() == LoginScreen
    {
      storage := storage - {TokenKey};
      user := None;
      route := Some(AdminRoute);
    }

    /**
     * The mount effect. Without a stored token loading simply ends. With one,
     * an answer carrying a user signs that user in; any other answer, or a
     * failed request, drops the token. Loading ends in every case.
     */
    method Mount(check: CheckAnswer)
      modifies this
      ensures !isLoading && route == old(route)
      ensures (TokenKey !in old(storage) || old(storage)[TokenKey] == "") ==>
        storage == old(storage) && user == old(user)
      ensures TokenKey in old(storage) && old(storage)[TokenKey] != "" ==>
        match AnsweredUser(check)
        case Some(u) => user == Some(u) && storage == old(storage)
        case None => user == old(user) && storage == old(storage) - {TokenKey}
    {
      if TokenKey in storage && storage[TokenKey] != "" {
        match AnsweredUser(check) {
          case Some(u) =>
            user := Some(u);
          case None =>
            storage := storage - {TokenKey};
        }
      }
      isLoading := false;
    }
  }

  /**
   * The mount check signs in exactly the users whose stored token the verify
   * route accepts, as the user the token was issued for.
   */
  lemma MountAgreesWithVerifyRoute(lib: Auth.JwtLibrary, secret: string, token: string, now: int)
    ensures AnsweredUser(Answered(VerifyRoute.Get(lib, secret, Some(Auth.BearerPrefix + token), now))).Some?
        <==> Auth.VerifyToken(lib, secret, token, now).Some?
    ensures Auth.VerifyToken(lib, secret, token, now).Some? ==>
      AnsweredUser(Answered(VerifyRoute.Get(lib, secret, Some(Auth.BearerPrefix + token), now)))
        == Some(Auth.VerifyToken(lib, secret, token, now).value.user)
  {
    Auth.BearerRoundTrip(lib, secret, token, now);
  }
}
