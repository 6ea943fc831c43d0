/** The team administration forms: one row per member to change or drop
    their role, and a form to add a new member with a role. */
module TeamForms {
  import opened Wrappers
  import opened Catalog
  import opened Projects
  import opened Accounts
  import opened Roles

  /** A member row's role selector: the roles offered and the preselected one. */
  datatype RoleField = RoleField(choices: seq<Role>, initial: RoleId)

  /** Building a member's row. Editing one's own row offers only the
      project's roles that hold `administrar_equipo`; any other row offers
      all of the project's roles; no role of another project is ever
      offered. The member's current role is preselected, so a user without
      a role in the project has no row. */
  function UserRoleFormInit(roles: seq<Role>, team: Team, proyecto: ProjectId, instance: UserId, actual: UserId)
    : (r: Result<RoleField, TeamError>)
    ensures r.Err? <==> instance !in team
    ensures r.Err? ==> r.error == NotAMember
    ensures r.Ok? ==> r.value.initial == team[instance]
    ensures r.Ok? ==> forall x :: x in r.value.choices <==>
      x in roles && x.proyecto == proyecto && (instance == actual ==> AdministrarEquipo in x.permisos)
  {
    if instance !in team then Err(NotAMember)
    else
      var required: set<ProjectPerm> := if instance == actual then {AdministrarEquipo} else {};
      Ok(RoleField(RolesOf(roles, proyecto, required), team[instance]))
  }

  /** Validating a row: a row marked for removal takes the user off the
      team (the account itself stays); otherwise the team is unchanged. */
  function UserRoleClean(team: Team, instance: UserId, borrar: bool): (r: Team)
    ensures borrar ==> instance !in r && r.Keys == team.Keys - {instance}
    ensures !borrar ==> r == team
    ensures forall u :: u in r ==> r[u] == team[u]
  {
    if borrar then QuitarRol(team, instance) else team
  }

  /** Saving a row: with a role selected, the user is assigned that role's
      name in the project; with none, the team is unchanged. A role that
      belongs to the project and whose name no other role of the project
      shares is assigned exactly. */
  function UserRoleSave(roles: seq<Role>, proyecto: ProjectId, team: Team, instance: UserId, rol: Option<Role>)
    : (r: Result<Team, TeamError>)
    ensures rol.None? ==> r == Ok(team)
    ensures rol.Some? ==> (r.Err? <==> forall x :: x in roles ==> !(x.proyecto == proyecto && x.nombre == rol.value.nombre))
    ensures r.Ok? && rol.Some? ==> exists x :: x in roles && x.proyecto == proyecto && x.nombre == rol.value.nombre
                                              && instance in r.value && r.value[instance] == x.id
    ensures r.Ok? ==> forall u :: u in team && u != instance ==> u in r.value && r.value[u] == team[u]
    ensures r.Ok? && rol.Some? ==> r.value.Keys == team.Keys + {instance}
    ensures rol.Some? && rol.value in roles && rol.value.proyecto == proyecto && UniqueNames(roles, proyecto)
            ==> r == Ok(team[instance := rol.value.id])
  {
    match rol
    case None => Ok(team)
    case Some(x) =>
      FindRoleWhenUnique(roles, proyecto, x);
      AsignarRol(roles, proyecto, team, instance, x.nombre)
  }

  /** The self-lockout guard of the member rows: whatever role the acting
      user picks on their own row, once saved they hold a role with
      `administrar_equipo` (role names unique within the project, since
      the choice is applied by name). */
  lemma {:induction false} SelfEditKeepsAdmin(roles: seq<Role>, team: Team, proyecto: ProjectId,
                                              actual: UserId, chosen: Role)
    requires UniqueNames(roles, proyecto)
    requires UserRoleFormInit(roles, team, proyecto, actual, actual).Ok?
    requires chosen in UserRoleFormInit(roles, team, proyecto, actual, actual).value.choices
    ensures var r := UserRoleSave(roles, proyecto, team, actual, Some(chosen));
      && r.Ok? && actual in r.value && r.value[actual] == chosen.id
      && AdministrarEquipo in chosen.permisos
  {
    FindRoleByOwnName(roles, proyecto, chosen);
  }

  /** A row marked for removal and then saved with its role selected puts
      the user back on the team with that role: the save re-creates the
      membership the validation step deleted. */
  lemma RemoveThenSaveRestores(roles: seq<Role>, proyecto: ProjectId, team: Team, instance: UserId, chosen: Role)
    requires UniqueNames(roles, proyecto)
    requires chosen in roles && chosen.proyecto == proyecto
    ensures UserRoleSave(roles, proyecto, UserRoleClean(team, instance, true), instance, Some(chosen))
         == Ok(team[instance := chosen.id])
  {
    var cleaned := UserRoleClean(team, instance, true);
    assert cleaned[instance := chosen.id] == team[instance := chosen.id];
  }

  /** The users that may be added: not yet on the team and not the
      anonymous placeholder, in table order. */
  function CandidateUsers(users: seq<User>, team: Team): (r: seq<User>)
    ensures |r| <= |users|
    ensures forall u :: u in r <==> u in users && u.userId !in team && u.userId != AnonymousUserId
    decreases |users|
  {
    if users == [] then []
    else
      var rest := CandidateUsers(users[1..], team);
      if users[0].userId !in team && users[0].userId != AnonymousUserId then [users[0]] + rest else rest
  }

  /** The add-member form's two selectors. */
  datatype MemberChoices = MemberChoices(usuarios: seq<User>, roles: seq<Role>)

  /** Building the add-member form: the users outside the team (minus the
      placeholder) and every role of the project. */
  function AgregarMiembroInit(users: seq<User>, roles: seq<Role>, team: Team, proyecto: ProjectId)
    : (r: MemberChoices)
    ensures forall u :: u in r.usuarios <==> u in users && u.userId !in team && u.userId != AnonymousUserId
    ensures forall x :: x in r.roles <==> x in roles && x.proyecto == proyecto
  {
    MemberChoices(CandidateUsers(users, team), RolesOf(roles, proyecto, {}))
  }

  /** Saving the add-member form assigns the chosen role, by name, to the
      chosen user. */
  function AgregarMiembroSave(roles: seq<Role>, proyecto: ProjectId, team: Team, usuario: User, rol: Role)
    : (r: Result<Team, TeamError>)
    ensures r.Ok? <==> exists x :: x in roles && x.proyecto == proyecto && x.nombre == rol.nombre
    ensures r.Ok? ==> r.value.Keys == team.Keys + {usuario.userId}
    ensures r.Ok? ==> exists x :: x in roles && x.proyecto == proyecto && x.nombre == rol.nombre
                                && r.value[usuario.userId] == x.id
    ensures r.Ok? ==> forall u :: u in team && u != usuario.userId ==> r.value[u] == team[u]
  {
    AsignarRol(roles, proyecto, team, usuario.userId, rol.nombre)
  }

  /** Adding a member picked from the form's selectors grows the team by
      exactly that user, on exactly the chosen role, and leaves every
      existing member as they were. */
  lemma {:induction false} AddMemberGrowsTeam(users: seq<User>, roles: seq<Role>, team: Team,
                                              proyecto: ProjectId, usuario: User, rol: Role)
    requires UniqueNames(roles, proyecto)
    requires usuario in AgregarMiembroInit(users, roles, team, proyecto).usuarios
    requires rol in AgregarMiembroInit(users, roles, team, proyecto).roles
    ensures var r := AgregarMiembroSave(roles, proyecto, team, usuario, rol);
      && r == Ok(team[usuario.userId := rol.id])
      && usuario.userId !in team
      && |r.value| == |team| + 1
  {
    FindRoleByOwnName(roles, proyecto, rol);
  }

  /** Assignment by name, as written, can miss the selected role: with two
      roles of the project named alike, the acting user who picks the one
      holding `administrar_equipo` on their own row is saved onto the other
      one, which lacks it. */
  lemma DuplicateNameLockout()
    ensures var roles := [Role(1, "X", 7, {}), Role(2, "X", 7, {AdministrarEquipo})];
      var team: Team := map["a" := 2];
      && UserRoleFormInit(roles, team, 7, "a", "a").Ok?
      && roles[1] in UserRoleFormInit(roles, team, 7, "a", "a").value.choices
      && UserRoleSave(roles, 7, team, "a", Some(roles[1])) == Ok(map["a" := 1])
      && AdministrarEquipo !in roles[0].permisos
  {
    var roles := [Role(1, "X", 7, {}), Role(2, "X", 7, {AdministrarEquipo})];
    var team: Team := map["a" := 2];
    assert roles[1] in roles && AdministrarEquipo in roles[1].permisos;
    assert roles[1] in UserRoleFormInit(roles, team, 7, "a", "a").value.choices;
    assert FindRole(roles, 7, "X") == Some(roles[0]);
    assert UserRoleSave(roles, 7, team, "a", Some(roles[1])) == Ok(team["a" := 1]);
    assert team["a" := 1] == map["a" := 1];
  }

  /** The same on the add-member form: picking the second of two roles named
      alike adds the user on the first. */
  lemma DuplicateNameWrongRole()
    ensures var roles := [Role(1, "X", 7, {}), Role(2, "X", 7, {AdministrarEquipo})];
      var users := [User("b", "b@x", "B", "B", "", true, false, false, {})];
      var team: Team := map[];
      && roles[1] in AgregarMiembroInit(users, roles, team, 7).roles
      && users[0] in AgregarMiembroInit(users, roles, team, 7).usuarios
      && AgregarMiembroSave(roles, 7, team, users[0], roles[1]) == Ok(map["b" := 1])
  {
    var roles := [Role(1, "X", 7, {}), Role(2, "X", 7, {AdministrarEquipo})];
    assert FindRole(roles[1..], 7, "X") == Some(roles[1]);
    var users := [User("b", "b@x", "B", "B", "", true, false, false, {})];
    var team: Team := map[];
    assert AnonymousUserId != "b" by { assert AnonymousUserId[0] != 'b'; }
    assert users[0] in AgregarMiembroInit(users, roles, team, 7).usuarios;
    assert AgregarMiembroSave(roles, 7, team, users[0], roles[1]) == Ok(team["b" := 1]);
    assert team["b" := 1] == map["b" := 1];
  }

  /** A member row saved by role identity: the selected role itself becomes
      the user's role; no other member changes. */
  function UserRoleSaveById(team: Team, instance: UserId, rol: Option<Role>): (r: Team)
    ensures rol.None? ==> r == team
    ensures rol.Some? ==> r.Keys == team.Keys + {instance} && r[instance] == rol.value.id
    ensures forall u :: u in team && u != instance ==> u in r && r[u] == team[u]
  {
    match rol
    case None => team
    case Some(x) => team[instance := x.id]
  }

  /** With assignment by identity the self-lockout guard holds for any role
      names: whatever role the acting user picks on their own row, they end
      on that role, and it holds `administrar_equipo`. */
  lemma SelfEditKeepsAdminById(roles: seq<Role>, team: Team, proyecto: ProjectId, actual: UserId, chosen: Role)
    requires UserRoleFormInit(roles, team, proyecto, actual, actual).Ok?
    requires chosen in UserRoleFormInit(roles, team, proyecto, actual, actual).value.choices
    ensures var r := UserRoleSaveById(team, actual, Some(chosen));
      actual in r && r[actual] == chosen.id && AdministrarEquipo in chosen.permisos
      && chosen.proyecto == proyecto
  {}

  /** The add-member form saved by role identity. */
  function AgregarMiembroSaveById(team: Team, usuario: User, rol: Role): (r: Team)
    ensures r.Keys == team.Keys + {usuario.userId}
    ensures r[usuario.userId] == rol.id
    ensures forall u :: u in team && u != usuario.userId ==> r[u] == team[u]
  {
    team[usuario.userId := rol.id]
  }

  /** With assignment by identity, adding a member picked from the form's
      selectors grows the team by exactly that user on exactly the chosen
      role of the project, for any role names. */
  lemma AddMemberGrowsTeamById(users: seq<User>, roles: seq<Role>, team: Team,
                               proyecto: ProjectId, usuario: User, rol: Role)
    requires usuario in AgregarMiembroInit(users, roles, team, proyecto).usuarios
    requires rol in AgregarMiembroInit(users, roles, team, proyecto).roles
    ensures var r := AgregarMiembroSaveById(team, usuario, rol);
      && usuario.userId !in team && |r| == |team| + 1
      && r[usuario.userId] == rol.id && rol.proyecto == proyecto
  {}
}
