/** The user service (`UsuariosService`): accounts with unique usernames, an
    activation flag, and a history of replaced password hashes. Hashing is `bcrypt`,
    which the model takes as the hash the caller computed. */
module Users {
  import opened Common
  import opened Text

  datatype Role = ADMIN | LOGISTICA | SUPERVISOR | MINA

  function RoleName(r: Role): string {
    match r
    case ADMIN => "ADMIN"
    case LOGISTICA => "LOGISTICA"
    case SUPERVISOR => "SUPERVISOR"
    case MINA => "MINA"
  }

  lemma RoleNamesDistinct(a: Role, b: Role)
    ensures RoleName(a) == RoleName(b) <==> a == b
  {
  }

  /** A `usuarios` row, with the login bookkeeping the auth service keeps in it. */
  datatype User = User(
    id: nat, username: string, passwordHash: string, fullName: string, role: Role, active: bool,
    supervisor: Option<int>, lastLogin: Option<Instant>, failedAttempts: nat)

  /** A validated registration body, without the password, which reaches the store
      only as its hash. */
  datatype NewUser = NewUser(username: string, fullName: string, role: Role, supervisor: Option<int>)

  /** A validated update body. `supervisor` is `Some(None)` for an explicit null. */
  datatype UserUpdate = UserUpdate(
    fullName: Option<string>, role: Option<Role>, active: Option<bool>, supervisor: Option<Option<int>>)

  /** What `create` selects: no hash. */
  datatype Created = Created(id: nat, username: string, fullName: string, role: Role)

  /** What `getById` selects. */
  datatype UserView = UserView(id: nat, username: string, fullName: string, role: Role, active: bool, supervisor: Option<int>)

  /** What `update` selects. */
  datatype Updated = Updated(id: nat, fullName: string, role: Role, active: bool, supervisor: Option<int>)

  /** A `password_history` row. */
  datatype PasswordChange = PasswordChange(user: nat, oldHash: string)

  const NotFound := AppError(404, "Usuario no encontrado")
  const UsernameInUse := AppError(400, "El nombre de usuario ya está en uso")

  function ViewOf(u: User): (v: UserView)
    ensures v.id == u.id && v.username == u.username && v.fullName == u.fullName
    ensures v.role == u.role && v.active == u.active && v.supervisor == u.supervisor
  {
    UserView(u.id, u.username, u.fullName, u.role, u.active, u.supervisor)
  }

  /** `getAll`'s `where`: every user (there is no soft deletion here), and with a
      non-empty search, those whose username or full name contains it. */
  predicate Selected(search: Option<string>, u: User)
    ensures !TruthyText(search) ==> Selected(search, u)
    ensures search == Some(u.username) || search == Some(u.fullName) ==> Selected(search, u)
  {
    TruthyText(search) ==> Contains(u.username, search.value) || Contains(u.fullName, search.value)
  }

  /** The row `update` writes: only the full name, role, flag and supervisor can
      change, each only when given. */
  function Edited(u: User, e: UserUpdate): (r: User)
    ensures r.id == u.id && r.username == u.username && r.passwordHash == u.passwordHash
    ensures r.lastLogin == u.lastLogin && r.failedAttempts == u.failedAttempts
    ensures r.fullName == OrElse(e.fullName, u.fullName) && r.role == OrElse(e.role, u.role)
    ensures r.active == OrElse(e.active, u.active) && r.supervisor == OrElse(e.supervisor, u.supervisor)
  {
    u.(fullName := Override(u.fullName, e.fullName), role := Override(u.role, e.role),
       active := Override(u.active, e.active), supervisor := Override(u.supervisor, e.supervisor))
  }

  class UserStore {
    var users: map<nat, User>
    var passwordHistory: seq<PasswordChange>
    var nextId: nat

    /** Users are stored under their ids, below the next id, and usernames are unique,
        as the table's key on `username` requires. */
    ghost predicate Valid()
      reads this
    {
      && (forall id :: id in users ==> users[id].id == id && id < nextId)
      && (forall a, b :: a in users && b in users && a != b ==> users[a].username != users[b].username)
    }

    constructor ()
      ensures Valid() && users == map[] && passwordHistory == []
    {
      users := map[];
      passwordHistory := [];
      nextId := 1;
    }

    predicate UsernameTaken(username: string)
      reads this
    {
      exists id :: id in users && users[id].username == username
    }

    /** `getById`; inactive users are found too. */
    function GetById(id: nat): (r: Result<UserView>)
      reads this
      ensures r.Err? <==> id !in users
      ensures r.Err? ==> r.error == NotFound
      ensures r.Ok? ==> r.value == ViewOf(users[id])
    {
      if id in users then Ok(ViewOf(users[id])) else Err(NotFound)
    }

    /** `getAll`'s pagination block. */
    function ListPage(page: int, limit: int, search: Option<string>): (p: Page)
      reads this
      ensures p.total == |set id | id in users && Selected(search, users[id])|
      ensures p.skip == (page - 1) * limit
      ensures limit > 0 ==> p.totalPages.Some? && (p.totalPages.value - 1) * limit < p.total <= p.totalPages.value * limit
    {
      Paginate(page, limit, |set id | id in users && Selected(search, users[id])|)
    }

    /** `create`: a taken username is refused; otherwise the user is stored active with
        the given hash, and the reply leaves the hash out. */
    method Create(input: NewUser, hash: string) returns (r: Result<Created>)
      requires Valid()
      modifies this
      ensures Valid() && passwordHistory == old(passwordHistory)
      ensures old(UsernameTaken(input.username)) ==> r == Err(UsernameInUse) && users == old(users)
      ensures !old(UsernameTaken(input.username)) ==>
        var u := User(old(nextId), input.username, hash, input.fullName, input.role, true, input.supervisor, None, 0);
        && old(nextId) !in old(users) && users == old(users)[old(nextId) := u]
        && r == Ok(Created(u.id, u.username, u.fullName, u.role))
    {
      if UsernameTaken(input.username) {
        return Err(UsernameInUse);
      }
      var u := User(nextId, input.username, hash, input.fullName, input.role, true, input.supervisor, None, 0);
      users := users[nextId := u];
      nextId := nextId + 1;
      r := Ok(Created(u.id, u.username, u.fullName, u.role));
    }

    /** `update`: an unknown id is refused; otherwise only the four editable columns
        change. */
    method Update(id: nat, e: UserUpdate) returns (r: Result<Updated>)
      requires Valid()
      modifies this
      ensures Valid() && passwordHistory == old(passwordHistory) && nextId == old(nextId)
      ensures id !in old(users) ==> r == Err(NotFound) && users == old(users)
      ensures id in old(users) ==>
        var u := Edited(old(users)[id], e);
        users == old(users)[id := u] && r == Ok(Updated(id, u.fullName, u.role, u.active, u.supervisor))
    {
      if id !in users {
        return Err(NotFound);
      }
      var u := Edited(users[id], e);
      users := users[id := u];
      r := Ok(Updated(id, u.fullName, u.role, u.active, u.supervisor));
    }

    /** `changePassword`: an unknown id is refused; otherwise the old hash goes to the
        history before the new one replaces it. */
    method ChangePassword(id: nat, hash: string) returns (r: Result<()>)
      requires Valid()
      modifies this
      ensures Valid() && nextId == old(nextId)
      ensures id !in old(users) ==> r == Err(NotFound) && users == old(users) && passwordHistory == old(passwordHistory)
      ensures id in old(users) ==>
        && r == Ok(())
        && passwordHistory == old(passwordHistory) + [PasswordChange(id, old(users)[id].passwordHash)]
        && users == old(users)[id := old(users)[id].(passwordHash := hash)]
    {
      if id !in users {
        return Err(NotFound);
      }
      passwordHistory := passwordHistory + [PasswordChange(id, users[id].passwordHash)];
      users := users[id := users[id].(passwordHash := hash)];
      r := Ok(());
    }

    /** `toggleActive`: an unknown id is refused; otherwise the flag is negated and
        nothing else changes. */
    method ToggleActive(id: nat) returns (r: Result<(nat, bool)>)
      requires Valid()
      modifies this
      ensures Valid() && passwordHistory == old(passwordHistory) && nextId == old(nextId)
      ensures id !in old(users) ==> r == Err(NotFound) && users == old(users)
      ensures id in old(users) ==>
        && users == old(users)[id := old(users)[id].(active := !old(users)[id].active)]
        && r == Ok((id, !old(users)[id].active))
    {
      if id !in users {
        return Err(NotFound);
      }
      var u := users[id].(active := !users[id].active);
      users := users[id := u];
      r := Ok((id, u.active));
    }
  }

  /** Toggling a user twice leaves every user as it was. */
  method ToggleTwice(store: UserStore, id: nat) returns (first: Result<(nat, bool)>, second: Result<(nat, bool)>)
    requires store.Valid()
    modifies store
    ensures store.Valid() && store.users == old(store.users)
    ensures id in old(store.users) ==> first == Ok((id, !old(store.users)[id].active)) && second == Ok((id, old(store.users)[id].active))
  {
    first := store.ToggleActive(id);
    second := store.ToggleActive(id);
    if id in old(store.users) {
      assert old(store.users)[id].(active := !!old(store.users)[id].active) == old(store.users)[id];
    }
  }
}
