/** The two closed permission catalogs of the system: the capabilities a
    role can hold inside one project, and the account-level capabilities a
    user holds directly. */
module Catalog {
  import opened Wrappers

  /** Project-scoped permissions declared on the Proyecto model. */
  datatype ProjectPerm = AdministrarEquipo | GestionarProyecto | PilaProducto | Desarrollo | Vista

  /** Account-level permissions declared on the User model. */
  datatype GlobalPerm = Administrar | Auditar | CrearProyecto

  function ProjectCodename(p: ProjectPerm): string {
    match p
    case AdministrarEquipo => "administrar_equipo"
    case GestionarProyecto => "gestionar_proyecto"
    case PilaProducto => "pila_producto"
    case Desarrollo => "desarrollo"
    case Vista => "vista"
  }

  function GlobalCodename(g: GlobalPerm): string {
    match g
    case Administrar => "administrar"
    case Auditar => "auditar"
    case CrearProyecto => "crear_proyecto"
  }

  /** Resolves a codename against the project catalog; `None` exactly when
      no project permission carries that codename. */
  function ParseProjectPerm(code: string): (r: Option<ProjectPerm>)
    ensures r.Some? ==> ProjectCodename(r.value) == code
    ensures r.None? <==> forall p: ProjectPerm :: ProjectCodename(p) != code
  {
    if code == "administrar_equipo" then Some(AdministrarEquipo)
    else if code == "gestionar_proyecto" then Some(GestionarProyecto)
    else if code == "pila_producto" then Some(PilaProducto)
    else if code == "desarrollo" then Some(Desarrollo)
    else if code == "vista" then Some(Vista)
    else None
  }

  /** Resolves a codename against the global catalog. */
  function ParseGlobalPerm(code: string): (r: Option<GlobalPerm>)
    ensures r.Some? ==> GlobalCodename(r.value) == code
    ensures r.None? <==> forall g: GlobalPerm :: GlobalCodename(g) != code
  {
    if code == "administrar" then Some(Administrar)
    else if code == "auditar" then Some(Auditar)
    else if code == "crear_proyecto" then Some(CrearProyecto)
    else None
  }

  lemma ProjectCodenameRoundTrip(p: ProjectPerm)
    ensures ParseProjectPerm(ProjectCodename(p)) == Some(p)
  {}

  lemma GlobalCodenameRoundTrip(g: GlobalPerm)
    ensures ParseGlobalPerm(GlobalCodename(g)) == Some(g)
  {}

  /** The project permissions in their declaration order. */
  const ProjectCatalog: seq<ProjectPerm> :=
    [AdministrarEquipo, GestionarProyecto, PilaProducto, Desarrollo, Vista]

  /** The same permissions in the order the permission table lists them
      (by codename), which is the order a role form walks them in. */
  const ProjectPermsByCodename: seq<ProjectPerm> :=
    [AdministrarEquipo, Desarrollo, GestionarProyecto, PilaProducto, Vista]

  /** The global permissions in their declaration order. */
  const GlobalCatalog: seq<GlobalPerm> := [Administrar, Auditar, CrearProyecto]

  /** A permission query with one codename excluded, order kept. */
  function Exclude(perms: seq<ProjectPerm>, code: string): (r: seq<ProjectPerm>)
    ensures |r| <= |perms|
    ensures forall p :: p in r <==> p in perms && ProjectCodename(p) != code
  {
    if perms == [] then []
    else if ProjectCodename(perms[0]) == code then Exclude(perms[1..], code)
    else [perms[0]] + Exclude(perms[1..], code)
  }

  /** `vista` is the only permission whose codename is "vista". */
  lemma OnlyVistaIsVista(p: ProjectPerm)
    ensures ProjectCodename(p) == "vista" <==> p == Vista
  {
    match p
    case AdministrarEquipo => assert ProjectCodename(p)[0] != 'v';
    case GestionarProyecto => assert ProjectCodename(p)[0] != 'v';
    case PilaProducto => assert ProjectCodename(p)[0] != 'v';
    case Desarrollo => assert ProjectCodename(p)[0] != 'v';
    case Vista =>
  }

  /** Excluding "vista" from the codename-ordered catalog leaves the four
      editable permissions, in order. */
  lemma {:induction false} ExcludeVista()
    ensures Exclude(ProjectPermsByCodename, "vista") == [AdministrarEquipo, Desarrollo, GestionarProyecto, PilaProducto]
  {
    var all := ProjectPermsByCodename;
    OnlyVistaIsVista(Vista);
    assert Exclude(all[4..], "vista") == [] by {
      assert all[4..] == [Vista];
      assert all[4..][1..] == [];
    }
    OnlyVistaIsVista(PilaProducto);
    assert all[3..][1..] == all[4..];
    assert Exclude(all[3..], "vista") == [PilaProducto];
    OnlyVistaIsVista(GestionarProyecto);
    assert all[2..][1..] == all[3..];
    assert Exclude(all[2..], "vista") == [GestionarProyecto, PilaProducto];
    OnlyVistaIsVista(Desarrollo);
    assert all[1..][1..] == all[2..];
    assert Exclude(all[1..], "vista") == [Desarrollo, GestionarProyecto, PilaProducto];
    OnlyVistaIsVista(AdministrarEquipo);
  }

  /** The permissions a role form edits: the project catalog minus `vista`,
      in codename order. */
  function EditablePerms(): (r: seq<ProjectPerm>)
    ensures forall p :: p in r <==> p != Vista
  {
    ExcludeVista();
    EditableMembers();
    Exclude(ProjectPermsByCodename, "vista")
  }

  lemma EditableMembers()
    ensures forall p :: p in [AdministrarEquipo, Desarrollo, GestionarProyecto, PilaProducto] <==> p != Vista
  {
    forall p: ProjectPerm
      ensures p in [AdministrarEquipo, Desarrollo, GestionarProyecto, PilaProducto] <==> p != Vista
    {
      match p
      case Vista =>
      case _ =>
    }
  }

  /** Both listings hold every project permission exactly once. */
  lemma ProjectCatalogComplete(p: ProjectPerm)
    ensures p in ProjectCatalog && p in ProjectPermsByCodename
    ensures multiset(ProjectCatalog)[p] == 1
    ensures multiset(ProjectCatalog) == multiset(ProjectPermsByCodename)
  {}

  /** The global catalog names exactly the three account permissions, so no
      default add/change/delete/view permission exists for users. */
  lemma GlobalCatalogExact()
    ensures forall g: GlobalPerm :: g in GlobalCatalog
    ensures (set g | g in GlobalCatalog :: GlobalCodename(g)) == {"administrar", "auditar", "crear_proyecto"}
  {
    forall g: GlobalPerm ensures g in GlobalCatalog {
      match g
      case Administrar => assert GlobalCatalog[0] == g;
      case Auditar => assert GlobalCatalog[1] == g;
      case CrearProyecto => assert GlobalCatalog[2] == g;
    }
    var names := set g | g in GlobalCatalog :: GlobalCodename(g);
    assert GlobalCodename(Administrar) in names;
    assert GlobalCodename(Auditar) in names;
    assert GlobalCodename(CrearProyecto) in names;
  }
}
