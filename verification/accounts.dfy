/** User accounts and the account manager that creates them. */
module Accounts {
  import opened Wrappers
  import opened Catalog

  /** Accounts are identified by `user_id`, the login field. */
  type UserId = string

  /** The placeholder account the object-permission library creates for
      anonymous visitors; it is never offered as a team member. */
  const AnonymousUserId: UserId := "AnonymousUser"

  /** A user row. `password` is the stored password field; `globalPerms`
      holds the account-level permissions granted to the user directly. */
  datatype User = User(
    userId: UserId,
    email: string,
    nombre: string,
    apellido: string,
    password: string,
    isActive: bool,
    isStaff: bool,
    isSuperuser: bool,
    globalPerms: set<GlobalPerm>)

  /** A unique column (`user_id` or `email`) would be duplicated. */
  datatype AccountError = IntegrityError

  /** The row the manager builds: only the four given fields are set and
      every other field keeps its model default. */
  function NewUser(userId: UserId, email: string, nombre: string, apellido: string): User {
    User(userId, email, nombre, apellido, "", true, false, false, {})
  }

  /** Some row already uses this `user_id` or this `email`. */
  predicate Conflicts(users: seq<User>, userId: UserId, email: string) {
    exists i :: 0 <= i < |users| && (users[i].userId == userId || users[i].email == email)
  }

  /** Saving a new row into the user table: refused when it would repeat a
      `user_id` or an `email`, appended otherwise. */
  function Insert(users: seq<User>, u: User): (r: Result<seq<User>, AccountError>)
    ensures r.Err? <==> Conflicts(users, u.userId, u.email)
    ensures r.Ok? ==> r.value == users + [u]
    decreases |users|
  {
    if users == [] then Ok([u])
    else if users[0].userId == u.userId || users[0].email == u.email then Err(IntegrityError)
    else
      match Insert(users[1..], u)
      case Ok(rest) =>
        assert users == [users[0]] + users[1..];
        Ok([users[0]] + rest)
      case Err(e) =>
        var i :| 0 <= i < |users[1..]| && (users[1..][i].userId == u.userId || users[1..][i].email == u.email);
        assert users[i + 1] == users[1..][i];
        Err(e)
  }

  /** `create_user`: a new active, non-staff, non-superuser account with
      exactly the given identity, no global permissions and an empty
      password field, whatever password was passed. */
  function CreateUser(users: seq<User>, userId: UserId, email: string, nombre: string, apellido: string,
                      password: Option<string>): (r: Result<(seq<User>, User), AccountError>)
    ensures r.Err? <==> Conflicts(users, userId, email)
    ensures r.Ok? ==>
      var (table, u) := r.value;
      && u.userId == userId && u.email == email && u.nombre == nombre && u.apellido == apellido
      && u.isActive && !u.isStaff && !u.isSuperuser
      && u.globalPerms == {} && u.password == ""
      && table == users + [u]
  {
    var u := NewUser(userId, email, nombre, apellido);
    match Insert(users, u)
    case Ok(table) => Ok((table, u))
    case Err(e) => Err(e)
  }

  /** `create_superuser`: the same account as `create_user` with the
      superuser flag raised before saving. */
  function CreateSuperuser(users: seq<User>, userId: UserId, email: string, nombre: string, apellido: string,
                           password: Option<string>): (r: Result<(seq<User>, User), AccountError>)
    ensures r.Err? <==> Conflicts(users, userId, email)
    ensures r.Ok? ==>
      var (table, u) := r.value;
      && u.userId == userId && u.email == email && u.nombre == nombre && u.apellido == apellido
      && u.isActive && !u.isStaff && u.isSuperuser
      && u.globalPerms == {} && u.password == ""
      && table == users + [u]
  {
    var u := NewUser(userId, email, nombre, apellido).(isSuperuser := true);
    match Insert(users, u)
    case Ok(table) => Ok((table, u))
    case Err(e) => Err(e)
  }

  /** The two constructors differ only in the superuser flag. */
  lemma SuperuserIsFlaggedUser(users: seq<User>, userId: UserId, email: string, nombre: string,
                               apellido: string, password: Option<string>)
    ensures CreateUser(users, userId, email, nombre, apellido, password).Ok?
        <==> CreateSuperuser(users, userId, email, nombre, apellido, password).Ok?
    ensures CreateUser(users, userId, email, nombre, apellido, password).Ok? ==>
      var (_, u) := CreateUser(users, userId, email, nombre, apellido, password).value;
      var (_, s) := CreateSuperuser(users, userId, email, nombre, apellido, password).value;
      s == u.(isSuperuser := true)
  {}

  /** Neither constructor reads its password argument. */
  lemma PasswordNotRead(users: seq<User>, userId: UserId, email: string, nombre: string,
                        apellido: string, p1: Option<string>, p2: Option<string>)
    ensures CreateUser(users, userId, email, nombre, apellido, p1)
         == CreateUser(users, userId, email, nombre, apellido, p2)
    ensures CreateSuperuser(users, userId, email, nombre, apellido, p1)
         == CreateSuperuser(users, userId, email, nombre, apellido, p2)
  {}
}
