/** Roles and team membership. The role model and its team-membership
    helpers are used by the forms but their definitions are not part of
    this model; what they are taken to do is stated here:
    - a role is a named permission set owned by one project;
    - a project's team maps each member to exactly one role;
    - assigning a role by name picks the first role of the project with
      that name and inserts or overwrites the member's entry;
    - removing a member deletes the entry and nothing else. */
module Roles {
  import opened Wrappers
  import opened Catalog
  import opened Projects
  import opened Accounts

  type RoleId = nat

  datatype Role = Role(id: RoleId, nombre: string, proyecto: ProjectId, permisos: set<ProjectPerm>)

  /** One project's team: at most one role per user, by construction. */
  type Team = map<UserId, RoleId>

  datatype TeamError =
    | RoleNotFound  // no role of the project has the requested name
    | NotAMember    // the user has no role in the project

  /** The roles of `proyecto` (in table order) that hold every permission in
      `required`; with `required == {}` this is all of the project's roles. */
  function RolesOf(roles: seq<Role>, proyecto: ProjectId, required: set<ProjectPerm>): (r: seq<Role>)
    ensures |r| <= |roles|
    ensures forall x :: x in r <==> x in roles && x.proyecto == proyecto && required <= x.permisos
    decreases |roles|
  {
    if roles == [] then []
    else
      var rest := RolesOf(roles[1..], proyecto, required);
      if roles[0].proyecto == proyecto && required <= roles[0].permisos then [roles[0]] + rest else rest
  }

  /** Resolves a role name within a project: the first matching role. */
  function FindRole(roles: seq<Role>, proyecto: ProjectId, nombre: string): (r: Option<Role>)
    ensures r.Some? ==> r.value in roles && r.value.proyecto == proyecto && r.value.nombre == nombre
    ensures r.None? <==> forall x :: x in roles ==> !(x.proyecto == proyecto && x.nombre == nombre)
    decreases |roles|
  {
    if roles == [] then None
    else if roles[0].proyecto == proyecto && roles[0].nombre == nombre then Some(roles[0])
    else FindRole(roles[1..], proyecto, nombre)
  }

  /** No two distinct roles of the project share a name. */
  predicate UniqueNames(roles: seq<Role>, proyecto: ProjectId) {
    forall i, j ::
      (0 <= i < |roles| && 0 <= j < |roles| && roles[i].proyecto == proyecto
       && roles[j].proyecto == proyecto && roles[i].nombre == roles[j].nombre) ==> roles[i] == roles[j]
  }

  /** With unique names, resolving a role's own name gives back that role. */
  lemma {:induction false} FindRoleByOwnName(roles: seq<Role>, proyecto: ProjectId, x: Role)
    requires UniqueNames(roles, proyecto)
    requires x in roles && x.proyecto == proyecto
    ensures FindRole(roles, proyecto, x.nombre) == Some(x)
    decreases |roles|
  {
    if roles[0] != x {
      assert UniqueNames(roles[1..], proyecto) by {
        forall i, j | 0 <= i < |roles[1..]| && 0 <= j < |roles[1..]| && roles[1..][i].proyecto == proyecto
          && roles[1..][j].proyecto == proyecto && roles[1..][i].nombre == roles[1..][j].nombre
          ensures roles[1..][i] == roles[1..][j]
        {
          assert roles[1..][i] == roles[i + 1] && roles[1..][j] == roles[j + 1];
        }
      }
      var k :| 0 <= k < |roles| && roles[k] == x;
      assert roles[0].nombre != x.nombre || roles[0].proyecto != proyecto;
      assert x in roles[1..] by { assert roles[1..][k - 1] == x; }
      FindRoleByOwnName(roles[1..], proyecto, x);
    }
  }

  lemma FindRoleWhenUnique(roles: seq<Role>, proyecto: ProjectId, x: Role)
    ensures UniqueNames(roles, proyecto) && x in roles && x.proyecto == proyecto ==>
              FindRole(roles, proyecto, x.nombre) == Some(x)
  {
    if UniqueNames(roles, proyecto) && x in roles && x.proyecto == proyecto {
      FindRoleByOwnName(roles, proyecto, x);
    }
  }

  /** Assigning a role by name: the member's entry is inserted or
      overwritten with the named role of the project; every other entry is
      untouched. Fails, changing nothing, when the name is unknown. */
  function AsignarRol(roles: seq<Role>, proyecto: ProjectId, team: Team, user: UserId, nombre: string)
    : (r: Result<Team, TeamError>)
    ensures r.Err? <==> forall x :: x in roles ==> !(x.proyecto == proyecto && x.nombre == nombre)
    ensures r.Err? ==> r.error == RoleNotFound
    ensures r.Ok? ==> r.value.Keys == team.Keys + {user}
    ensures r.Ok? ==> exists x :: x in roles && x.proyecto == proyecto && x.nombre == nombre && r.value[user] == x.id
    ensures r.Ok? ==> forall u :: u in team && u != user ==> r.value[u] == team[u]
  {
    match FindRole(roles, proyecto, nombre)
    case None => Err(RoleNotFound)
    case Some(x) => Ok(team[user := x.id])
  }

  /** Removing a member: the entry disappears and nothing else changes. */
  function QuitarRol(team: Team, user: UserId): (r: Team)
    ensures user !in r
    ensures r.Keys == team.Keys - {user}
    ensures forall u :: u in r ==> r[u] == team[u]
  {
    team - {user}
  }

  /** Every member's role is a role of the project. */
  predicate TeamInProject(roles: seq<Role>, proyecto: ProjectId, team: Team) {
    forall u :: u in team ==> exists x :: x in roles && x.proyecto == proyecto && x.id == team[u]
  }

  /** Both membership operations keep every member on a role of the project. */
  lemma MembershipKeepsTeamInProject(roles: seq<Role>, proyecto: ProjectId, team: Team, user: UserId, nombre: string)
    requires TeamInProject(roles, proyecto, team)
    ensures TeamInProject(roles, proyecto, QuitarRol(team, user))
    ensures AsignarRol(roles, proyecto, team, user, nombre).Ok? ==>
              TeamInProject(roles, proyecto, AsignarRol(roles, proyecto, team, user, nombre).value)
  {
    var r := AsignarRol(roles, proyecto, team, user, nombre);
    if r.Ok? {
      forall u | u in r.value
        ensures exists x :: x in roles && x.proyecto == proyecto && x.id == r.value[u]
      {
        if u != user {
          assert r.value[u] == team[u];
        }
      }
    }
  }
}
