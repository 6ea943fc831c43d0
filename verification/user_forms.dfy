/** The administration form that edits a user's names and global
    permissions. */
module UserForms {
  import opened Catalog
  import opened PermissionSets
  import opened Accounts

  /** The submitted form: editable names and one checkbox per global
      permission. The e-mail field is disabled, so it is never written. */
  datatype UserFormData = UserFormData(
    nombre: string,
    apellido: string,
    crearProyecto: bool,
    administrar: bool,
    auditar: bool)

  /** The codenames the save loop walks, in order. */
  const UserFormCodes: seq<string> := ["crear_proyecto", "administrar", "auditar"]

  /** Codenames resolved against the global catalog, unknown ones dropped. */
  function ResolveAll(codes: seq<string>): (r: seq<GlobalPerm>)
    ensures |r| <= |codes|
    ensures forall g :: g in r <==> GlobalCodename(g) in codes
    decreases |codes|
  {
    if codes == [] then []
    else
      var rest := ResolveAll(codes[1..]);
      match ParseGlobalPerm(codes[0])
      case Some(g) => [g] + rest
      case None => rest
  }

  /** The global permissions the save loop walks: all three. */
  function UserFormOrder(): (r: seq<GlobalPerm>)
    ensures forall g: GlobalPerm :: g in r
  {
    var r := ResolveAll(UserFormCodes);
    assert GlobalCodename(CrearProyecto) == UserFormCodes[0];
    assert GlobalCodename(Administrar) == UserFormCodes[1];
    assert GlobalCodename(Auditar) == UserFormCodes[2];
    AllGlobalIn(r);
    r
  }

  lemma AllGlobalIn(r: seq<GlobalPerm>)
    requires CrearProyecto in r && Administrar in r && Auditar in r
    ensures forall g: GlobalPerm :: g in r
  {
    forall g: GlobalPerm ensures g in r {
      match g
      case CrearProyecto =>
      case Administrar =>
      case Auditar =>
    }
  }

  /** The global permissions whose checkbox is ticked. */
  function CheckedGlobals(d: UserFormData): set<GlobalPerm> {
    (if d.crearProyecto then {CrearProyecto} else {})
    + (if d.administrar then {Administrar} else {})
    + (if d.auditar then {Auditar} else {})
  }

  /** Saving the form: afterwards the user holds each global permission
      exactly when its box was ticked, whatever was held before; the names
      are replaced and no other field changes. */
  function SaveUserForm(u: User, d: UserFormData): (r: User)
    ensures CrearProyecto in r.globalPerms <==> d.crearProyecto
    ensures Administrar in r.globalPerms <==> d.administrar
    ensures Auditar in r.globalPerms <==> d.auditar
    ensures r.nombre == d.nombre && r.apellido == d.apellido
    ensures r.(nombre := u.nombre, apellido := u.apellido, globalPerms := u.globalPerms) == u
  {
    u.(nombre := d.nombre, apellido := d.apellido,
       globalPerms := ApplyChecks(UserFormOrder(), CheckedGlobals(d), u.globalPerms))
  }

  /** The saved permission set depends only on the form: two users saved
      with the same form end with the same global permissions, and saving
      twice is the same as saving once. */
  lemma SaveUserFormForgetsPrior(u1: User, u2: User, d: UserFormData)
    ensures SaveUserForm(u1, d).globalPerms == SaveUserForm(u2, d).globalPerms
    ensures SaveUserForm(SaveUserForm(u1, d), d) == SaveUserForm(u1, d)
  {
    GlobalPermsExt(SaveUserForm(u1, d).globalPerms, SaveUserForm(u2, d).globalPerms);
    GlobalPermsExt(SaveUserForm(SaveUserForm(u1, d), d).globalPerms, SaveUserForm(u1, d).globalPerms);
  }

  /** Two global permission sets that agree on each of the three permissions are equal. */
  lemma GlobalPermsExt(a: set<GlobalPerm>, b: set<GlobalPerm>)
    requires CrearProyecto in a <==> CrearProyecto in b
    requires Administrar in a <==> Administrar in b
    requires Auditar in a <==> Auditar in b
    ensures a == b
  {
    forall g: GlobalPerm ensures g in a <==> g in b {
      match g
      case CrearProyecto =>
      case Administrar =>
      case Auditar =>
    }
  }
}
