/** The auth service (`AuthService`): login with its failed-attempt counter, refresh
    of an access token, and the current user's profile. Password checking (`bcrypt`)
    and token signing and verification (`jsonwebtoken`) are functions the caller
    supplies. */
module Auth {
  import opened Common
  import U = Users

  /** What a token carries. */
  datatype TokenPayload = TokenPayload(userId: int, username: string, role: string)

  /** The user block of a login reply. */
  datatype Summary = Summary(id: nat, username: string, name: string, role: U.Role)

  datatype Session = Session(accessToken: string, refreshToken: string, user: Summary)

  /** What `getMe` selects, with the linked supervisor by its id. */
  datatype Profile = Profile(
    id: nat, username: string, fullName: string, role: U.Role, active: bool, lastLogin: Option<Instant>,
    supervisor: Option<int>)

  const BadCredentials := AppError(401, "Credenciales inválidas")
  const Inactive := AppError(401, "Usuario inactivo. Contacte al administrador")
  const RefreshFailed := AppError(401, "Refresh token inválido o expirado")
  const NotFound := AppError(404, "Usuario no encontrado")

  function PayloadOf(u: U.User): (p: TokenPayload)
    ensures p.userId == u.id && p.username == u.username && p.role == U.RoleName(u.role)
  {
    TokenPayload(u.id, u.username, U.RoleName(u.role))
  }

  class AuthService {
    const store: U.UserStore

    constructor (store: U.UserStore)
      ensures this.store == store
    {
      this.store := store;
    }

    /** `login`. `passwordMatches(password, hash)` is `bcrypt.compare`; `sign` and
        `signRefresh` issue the two tokens. The counter is only written, never read: no
        number of failures locks an account. */
    method Login(username: string, password: string, now: Instant, passwordMatches: (string, string) -> bool,
                 sign: TokenPayload -> string, signRefresh: TokenPayload -> string)
      returns (r: Result<Session>)
      requires store.Valid()
      modifies store
      ensures store.Valid() && store.passwordHistory == old(store.passwordHistory) && store.nextId == old(store.nextId)
      ensures !old(store.UsernameTaken(username)) ==> r == Err(BadCredentials) && store.users == old(store.users)
      ensures forall id :: id in old(store.users) && old(store.users)[id].username == username ==>
        var u := old(store.users)[id];
        if !u.active then
          r == Err(Inactive) && store.users == old(store.users)
        else if !passwordMatches(password, u.passwordHash) then
          r == Err(BadCredentials) && store.users == old(store.users)[id := u.(failedAttempts := u.failedAttempts + 1)]
        else
          && store.users == old(store.users)[id := u.(failedAttempts := 0, lastLogin := Some(now))]
          && r == Ok(Session(sign(PayloadOf(u)), signRefresh(PayloadOf(u)), Summary(u.id, u.username, u.fullName, u.role)))
    {
      if !store.UsernameTaken(username) {
        return Err(BadCredentials);
      }
      var id :| id in store.users && store.users[id].username == username;
      var u := store.users[id];
      if !u.active {
        return Err(Inactive);
      }
      if !passwordMatches(password, u.passwordHash) {
        store.users := store.users[id := u.(failedAttempts := u.failedAttempts + 1)];
        return Err(BadCredentials);
      }
      store.users := store.users[id := u.(failedAttempts := 0, lastLogin := Some(now))];
      r := Ok(Session(sign(PayloadOf(u)), signRefresh(PayloadOf(u)), Summary(u.id, u.username, u.fullName, u.role)));
    }

    /** `refreshAccessToken`. `verify` is the refresh-token check (`None` when it
        throws). Every failure inside the `try`, the service's own 401 for a missing or
        inactive user included, leaves it as one and the same 401. The new token is
        built from the stored user, not from the old token. */
    function Refresh(token: string, verify: string -> Option<TokenPayload>, sign: TokenPayload -> string): (r: Result<string>)
      reads store
      ensures r.Err? ==> r.error == RefreshFailed
      ensures r.Ok? <==>
        && verify(token).Some? && verify(token).value.userId >= 0
        && verify(token).value.userId as nat in store.users && store.users[verify(token).value.userId as nat].active
      ensures r.Ok? ==> r.value == sign(PayloadOf(store.users[verify(token).value.userId as nat]))
    {
      match verify(token)
      case None => Err(RefreshFailed)
      case Some(p) =>
        if p.userId < 0 || p.userId as nat !in store.users || !store.users[p.userId as nat].active then Err(RefreshFailed)
        else Ok(sign(PayloadOf(store.users[p.userId as nat])))
    }

    /** `getMe`: an unknown id is a 404; an inactive user is still found. */
    function GetMe(userId: int): (r: Result<Profile>)
      reads store
      ensures r.Err? <==> userId < 0 || userId as nat !in store.users
      ensures r.Err? ==> r.error == NotFound
      ensures r.Ok? ==>
        var u := store.users[userId as nat];
        r.value == Profile(u.id, u.username, u.fullName, u.role, u.active, u.lastLogin, u.supervisor)
    {
      if userId < 0 || userId as nat !in store.users then Err(NotFound)
      else
        var u := store.users[userId as nat];
        Ok(Profile(u.id, u.username, u.fullName, u.role, u.active, u.lastLogin, u.supervisor))
    }
  }

  /** A wrong password counts one failure and the right one then still logs in and
      clears the count, whatever the count was before. */
  method WrongThenRight(auth: AuthService, id: nat, wrong: string, right: string, now: Instant,
                        passwordMatches: (string, string) -> bool, sign: TokenPayload -> string,
                        signRefresh: TokenPayload -> string)
      returns (first: Result<Session>, second: Result<Session>)
    requires auth.store.Valid() && id in auth.store.users && auth.store.users[id].active
    requires !passwordMatches(wrong, auth.store.users[id].passwordHash) && passwordMatches(right, auth.store.users[id].passwordHash)
    modifies auth.store
    ensures first == Err(BadCredentials) && second.Ok?
    ensures id in auth.store.users && auth.store.users[id].failedAttempts == 0
  {
    var name := auth.store.users[id].username;
    assert auth.store.users[id].username == name;
    first := auth.Login(name, wrong, now, passwordMatches, sign, signRefresh);
    assert auth.store.users[id].username == name && auth.store.users[id].active;
    second := auth.Login(name, right, now, passwordMatches, sign, signRefresh);
  }
}
