/** The two request guards of `auth.middleware`: `authenticate` reads a bearer token
    and attaches its payload to the request, `authorize` admits listed roles only.
    Token verification is a function the caller supplies. */
module AuthMiddleware {
  import opened Common
  import opened Text
  import A = Auth
  import U = Users

  /** A thrown `Error`: its `name` and what it carries. */
  datatype Thrown = Thrown(name: string, failure: Failure)

  /** What `verifyAccessToken` does with a token: returns its payload or throws. */
  datatype Verification = Verified(payload: A.TokenPayload) | Threw(error: Thrown)

  /** What a middleware hands to `next`: nothing, or an error. */
  datatype Next = Continue | Fail(error: Failure)

  const Bearer := "Bearer "
  /** `AppError` does not set `name`, so it keeps `Error`'s. */
  const AppErrorName := "Error"

  const TokenRequired := AppError(401, "Token de autenticación requerido")
  const Expired := AppError(401, "Token expirado")
  const Invalid := AppError(401, "Token inválido")
  const NotAuthenticated := AppError(401, "No autenticado")
  const Forbidden := AppError(403, "No tienes permisos para realizar esta acción")

  /** The `catch` of `authenticate`: the two token errors of the JWT library become
      401s and anything else goes on unchanged. */
  function Caught(e: Thrown): (f: Failure)
    ensures e.name == "TokenExpiredError" ==> f == Expired
    ensures e.name == "JsonWebTokenError" ==> f == Invalid
    ensures e.name != "TokenExpiredError" && e.name != "JsonWebTokenError" ==> f == e.failure
  {
    if e.name == "TokenExpiredError" then Expired
    else if e.name == "JsonWebTokenError" then Invalid
    else e.failure
  }

  /** What `authenticate` decides for an `Authorization` header (`None` when absent):
      the payload of the token after `Bearer `, or the error passed to `next`. */
  function Authentication(header: Option<string>, verify: string -> Verification): (r: Result<A.TokenPayload>)
    ensures header.None? || !IsPrefix(Bearer, header.value) ==> r == Err(TokenRequired)
    ensures header.Some? && IsPrefix(Bearer, header.value) ==>
      var v := verify(header.value[|Bearer|..]);
      && (r.Ok? <==> v.Verified?)
      && (r.Ok? ==> r.value == v.payload)
      && (r.Err? ==> r.error == Caught(v.error))
  {
    if header.None? || !IsPrefix(Bearer, header.value) then
      Err(Caught(Thrown(AppErrorName, TokenRequired)))
    else
      match verify(header.value[|Bearer|..])
      case Verified(p) => Ok(p)
      case Threw(e) => Err(Caught(e))
  }

  /** The token is exactly what follows `Bearer `. */
  lemma BearerTokenIsVerified(token: string, verify: string -> Verification)
    ensures Authentication(Some(Bearer + token), verify).Ok? <==> verify(token).Verified?
    ensures verify(token).Verified? ==> Authentication(Some(Bearer + token), verify) == Ok(verify(token).payload)
    ensures verify(token).Threw? ==> Authentication(Some(Bearer + token), verify) == Err(Caught(verify(token).error))
  {
    var h := Bearer + token;
    assert h[..|Bearer|] == Bearer;
    assert h[|Bearer|..] == token;
  }

  /** `authenticate` fails only with a 401 of its own or an error the verifier threw
      under some other name. */
  lemma AuthenticationErrors(header: Option<string>, verify: string -> Verification)
    requires Authentication(header, verify).Err?
    ensures var f := Authentication(header, verify).error;
      || (f.AppError? && f.statusCode == 401)
      || (exists t :: verify(t).Threw? && f == verify(t).error.failure)
  {
    if header.Some? && IsPrefix(Bearer, header.value) {
      var t := header.value[|Bearer|..];
      var e := verify(t).error;
      if e.name != "TokenExpiredError" && e.name != "JsonWebTokenError" {
        assert verify(t).Threw? && Authentication(header, verify).error == verify(t).error.failure;
      }
    }
  }

  /** The request as the guards see it. */
  class Request {
    var user: Option<A.TokenPayload>

    constructor ()
      ensures user.None?
    {
      user := None;
    }
  }

  /** `authenticate`: on success the payload becomes `req.user` and the request goes
      on; on failure `req.user` is left as it was. */
  method Authenticate(req: Request, header: Option<string>, verify: string -> Verification) returns (next: Next)
    modifies req
    ensures Authentication(header, verify).Ok? ==> next == Continue && req.user == Some(Authentication(header, verify).value)
    ensures Authentication(header, verify).Err? ==> next == Fail(Authentication(header, verify).error) && req.user == old(req.user)
  {
    var outcome := Authentication(header, verify);
    if outcome.Ok? {
      req.user := Some(outcome.value);
      next := Continue;
    } else {
      next := Fail(outcome.error);
    }
  }

  /** `authorize(...roles)`: no user is a 401, a role outside the list a 403. */
  function Authorize(user: Option<A.TokenPayload>, roles: seq<string>): (r: Next)
    ensures r == Continue <==> user.Some? && user.value.role in roles
    ensures user.None? ==> r == Fail(NotAuthenticated)
    ensures user.Some? && user.value.role !in roles ==> r == Fail(Forbidden)
  {
    if user.None? then Fail(NotAuthenticated)
    else if user.value.role !in roles then Fail(Forbidden)
    else Continue
  }

  /** A token issued at login admits its holder to a route guarded by a list of roles
      exactly when the user's own role is in that list. */
  lemma LoggedInUserAuthorized(u: U.User, allowed: seq<U.Role>)
    ensures var names := seq(|allowed|, i requires 0 <= i < |allowed| => U.RoleName(allowed[i]));
      Authorize(Some(A.PayloadOf(u)), names) == Continue <==> u.role in allowed
  {
    var names := seq(|allowed|, i requires 0 <= i < |allowed| => U.RoleName(allowed[i]));
    if U.RoleName(u.role) in names {
      var i :| 0 <= i < |names| && names[i] == U.RoleName(u.role);
      U.RoleNamesDistinct(allowed[i], u.role);
      assert allowed[i] == u.role;
    }
    if u.role in allowed {
      var i :| 0 <= i < |allowed| && allowed[i] == u.role;
      assert names[i] == U.RoleName(u.role);
    }
  }
}
