/** The role administration form: creates a role of a project or edits the
    four editable permissions of an existing one, with the self-lockout
    guard on the acting user's own role. */
module RoleForms {
  import opened Wrappers
  import opened Catalog
  import opened PermissionSets
  import opened Projects
  import opened Roles

  /** The submitted form: the role's name and one checkbox per editable
      permission (`vista` has none). */
  datatype RoleFormData = RoleFormData(
    nombre: string,
    administrarEquipo: bool,
    gestionarProyecto: bool,
    pilaProducto: bool,
    desarrollo: bool)

  /** The instance the form is bound to: a stored role, or a new role of a
      project that has no primary key yet. */
  datatype RoleInstance = Stored(role: Role) | Unsaved(proyecto: ProjectId)

  /** The editable permissions whose checkbox is ticked. */
  function CheckedPerms(d: RoleFormData): set<ProjectPerm> {
    (if d.administrarEquipo then {AdministrarEquipo} else {})
    + (if d.gestionarProyecto then {GestionarProyecto} else {})
    + (if d.pilaProducto then {PilaProducto} else {})
    + (if d.desarrollo then {Desarrollo} else {})
  }

  lemma CheckedPermsFields(d: RoleFormData)
    ensures AdministrarEquipo in CheckedPerms(d) <==> d.administrarEquipo
    ensures GestionarProyecto in CheckedPerms(d) <==> d.gestionarProyecto
    ensures PilaProducto in CheckedPerms(d) <==> d.pilaProducto
    ensures Desarrollo in CheckedPerms(d) <==> d.desarrollo
    ensures Vista !in CheckedPerms(d)
  {}

  /** The form shown for a stored role: its name, and each box ticked
      exactly when the role holds that permission. */
  function InitialData(role: Role): (d: RoleFormData)
    ensures d.nombre == role.nombre
    ensures CheckedPerms(d) == role.permisos - {Vista}
  {
    var d := RoleFormData(role.nombre,
      AdministrarEquipo in role.permisos, GestionarProyecto in role.permisos,
      PilaProducto in role.permisos, Desarrollo in role.permisos);
    CheckedPermsOfHeld(role.permisos);
    d
  }

  lemma CheckedPermsOfHeld(held: set<ProjectPerm>)
    ensures CheckedPerms(RoleFormData("", AdministrarEquipo in held, GestionarProyecto in held,
                                      PilaProducto in held, Desarrollo in held)) == held - {Vista}
  {
    var d := RoleFormData("", AdministrarEquipo in held, GestionarProyecto in held, PilaProducto in held, Desarrollo in held);
    forall p: ProjectPerm ensures p in CheckedPerms(d) <==> p in held - {Vista} {
      match p
      case Vista =>
      case _ =>
    }
  }

  /** The form is editing the acting user's own role. */
  predicate IsOwnRole(instance: RoleInstance, rolActual: Option<RoleId>) {
    instance.Stored? && rolActual == Some(instance.role.id)
  }

  /** Saving the form. A stored role keeps its identity and project, has
      each editable permission exactly when ticked (`administrar_equipo`
      always, when it is the acting user's own role) and keeps or lacks
      `vista` as before. A new role gets `newId`, the given project and
      exactly the ticked permissions, with no coercion. */
  function SaveRole(instance: RoleInstance, rolActual: Option<RoleId>, d: RoleFormData, newId: RoleId): (r: Role)
    ensures r.nombre == d.nombre
    ensures instance.Stored? ==> r.id == instance.role.id && r.proyecto == instance.role.proyecto
    ensures instance.Stored? ==> (Vista in r.permisos <==> Vista in instance.role.permisos)
    ensures instance.Stored? ==>
      && (AdministrarEquipo in r.permisos <==> d.administrarEquipo || IsOwnRole(instance, rolActual))
      && (GestionarProyecto in r.permisos <==> d.gestionarProyecto)
      && (PilaProducto in r.permisos <==> d.pilaProducto)
      && (Desarrollo in r.permisos <==> d.desarrollo)
    ensures instance.Unsaved? ==> r.id == newId && r.proyecto == instance.proyecto && r.permisos == CheckedPerms(d)
  {
    match instance
    case Stored(role) =>
      var own := rolActual == Some(role.id);
      var checked := CheckedPerms(d) + (if own then {AdministrarEquipo} else {});
      var held := ApplyChecks(EditablePerms(), checked, role.permisos);
      EditedPerms(role.permisos, checked);
      CheckedPermsFields(d);
      assert AdministrarEquipo in held <==> AdministrarEquipo in checked;
      assert GestionarProyecto in held <==> GestionarProyecto in checked;
      assert PilaProducto in held <==> PilaProducto in checked;
      assert Desarrollo in held <==> Desarrollo in checked;
      role.(nombre := d.nombre, permisos := held)
    case Unsaved(proyecto) =>
      var added := AddChecked(EditablePerms(), CheckedPerms(d), {});
      AddedIsChecked(EditablePerms(), d, added);
      Role(newId, d.nombre, proyecto, added)
  }

  /** What the edit loop over the editable permissions leaves behind. */
  lemma EditedPerms(before: set<ProjectPerm>, checked: set<ProjectPerm>)
    ensures Vista in ApplyChecks(EditablePerms(), checked, before) <==> Vista in before
    ensures forall p :: p != Vista ==> (p in ApplyChecks(EditablePerms(), checked, before) <==> p in checked)
  {}

  lemma AddedIsChecked(editable: seq<ProjectPerm>, d: RoleFormData, added: set<ProjectPerm>)
    requires forall p :: p in editable <==> p != Vista
    requires forall p :: p in added <==> p in editable && p in CheckedPerms(d)
    ensures added == CheckedPerms(d)
  {
    forall p: ProjectPerm ensures p in added <==> p in CheckedPerms(d) {
      match p
      case Vista =>
      case _ =>
    }
  }

  /** Two permission sets that agree on each of the five permissions are equal. */
  lemma PermsExt(a: set<ProjectPerm>, b: set<ProjectPerm>)
    requires AdministrarEquipo in a <==> AdministrarEquipo in b
    requires GestionarProyecto in a <==> GestionarProyecto in b
    requires PilaProducto in a <==> PilaProducto in b
    requires Desarrollo in a <==> Desarrollo in b
    requires Vista in a <==> Vista in b
    ensures a == b
  {
    forall p: ProjectPerm ensures p in a <==> p in b {
      match p
      case AdministrarEquipo =>
      case GestionarProyecto =>
      case PilaProducto =>
      case Desarrollo =>
      case Vista =>
    }
  }

  /** Submitting the form unchanged leaves a stored role as it was, unless
      it is the acting user's own role and lacked `administrar_equipo`, in
      which case that permission is added and nothing else changes. */
  lemma {:induction false} UnchangedFormKeepsRole(role: Role, rolActual: Option<RoleId>, newId: RoleId)
    ensures var r := SaveRole(Stored(role), rolActual, InitialData(role), newId);
      if rolActual == Some(role.id) then r == role.(permisos := role.permisos + {AdministrarEquipo})
      else r == role
  {
    var d := InitialData(role);
    CheckedPermsFields(d);
    assert d.gestionarProyecto <==> GestionarProyecto in role.permisos;
    assert d.pilaProducto <==> PilaProducto in role.permisos;
    assert d.desarrollo <==> Desarrollo in role.permisos;
    assert d.administrarEquipo <==> AdministrarEquipo in role.permisos;
    var r := SaveRole(Stored(role), rolActual, d, newId);
    var expected := if rolActual == Some(role.id) then role.permisos + {AdministrarEquipo} else role.permisos;
    PermsExt(r.permisos, expected);
  }

  /** Saving the same form twice is the same as saving it once. */
  lemma {:induction false} SaveRoleIdempotent(role: Role, rolActual: Option<RoleId>, d: RoleFormData, newId: RoleId)
    ensures var once := SaveRole(Stored(role), rolActual, d, newId);
      SaveRole(Stored(once), rolActual, d, newId) == once
  {
    var once := SaveRole(Stored(role), rolActual, d, newId);
    var twice := SaveRole(Stored(once), rolActual, d, newId);
    assert IsOwnRole(Stored(once), rolActual) == IsOwnRole(Stored(role), rolActual);
    PermsExt(twice.permisos, once.permisos);
  }

  /** Worked case: a role holding `administrar_equipo` and
      `gestionar_proyecto`, edited by one of its own members with only
      `gestionar_proyecto` ticked, keeps both; edited by anyone else, it
      loses `administrar_equipo`. */
  lemma ScrumMasterSelfEdit()
    ensures var sm := Role(1, "Scrum master", 7, {AdministrarEquipo, GestionarProyecto});
      var d := RoleFormData("Scrum master", false, true, false, false);
      && SaveRole(Stored(sm), Some(1), d, 0).permisos == {AdministrarEquipo, GestionarProyecto}
      && SaveRole(Stored(sm), Some(2), d, 0).permisos == {GestionarProyecto}
  {
    var sm := Role(1, "Scrum master", 7, {AdministrarEquipo, GestionarProyecto});
    var d := RoleFormData("Scrum master", false, true, false, false);
    PermsExt(SaveRole(Stored(sm), Some(1), d, 0).permisos, {AdministrarEquipo, GestionarProyecto});
    PermsExt(SaveRole(Stored(sm), Some(2), d, 0).permisos, {GestionarProyecto});
  }
}
