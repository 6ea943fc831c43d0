# sgp-is2 project access control, as a Dafny model

This project models the permission and team logic of the SGP project-management
web application (a Django site): the two closed permission catalogs, the
administration form that edits a user's global permissions, the role form that
creates roles and edits their project permissions (with the guard that stops a
user from revoking team administration from their own role), the team forms that
change, remove and add project members, the account manager's constructors, and
the date checks of the project and sprint forms.

Everything is a pure function over immutable values:

- permissions are closed enumerations (`Catalog.ProjectPerm`, `Catalog.GlobalPerm`);
- a role is a named permission set owned by one project (`Roles.Role`);
- a project's team is a map from user to role (`Roles.Team`), so a user has at most
  one role per project by construction;
- tables are sequences in query order; dates are integer day numbers and "today"
  is a parameter.

The role model and its helpers `asignar_rol`, `quitar_rol`, `asignar_permiso` and
`quitar_permiso` are called by the forms but are not part of this model. Their
behaviour is an assumption, written down once in `roles.dfy` and
`permission_sets.dfy`:

- granting or revoking a permission is set insert or remove;
- assigning a role by name picks the first role of the project with that name and
  inserts or overwrites the member's entry, failing with `RoleNotFound` when there
  is none;
- removing a member deletes the entry and nothing else.

The object-permission library's `assign_perm`/`remove_perm` are modelled the same way.
`PermissionSets.Grant` and `PermissionSets.Revoke` state these assumed contracts once
for all four calls.

Where the role form's docstring (sgp/forms.py:134-137) and its code differ, the
model follows the code:

- The self-role guard forces `administrar_equipo` on whenever the role being edited
  is the acting user's role. It does this even when the role did not hold it
  before, so such an edit can add it (sgp/forms.py:167-168). It is not limited to
  blocking a revocation.
- A new role gets exactly the ticked permissions and no guard applies.
- sgp/forms.py and sgp/models.py contain no default-role bootstrap and no role
  deletion, and define no capability query of their own (sgp/forms.py:45 only calls
  the framework's `has_perm` for initial values); none is modelled.

`sgp/models.py` is out of date with respect to the forms: the forms use
`nombre`, `estado` and `duracion_sprint`, while the model file declares
`nombre_proyecto` and `status`. `Projects.Proyecto` follows `sgp/models.py`. The date
forms take their fields directly as parameters.

The add-member form excludes the object-permission library's anonymous placeholder
with `.exclude(pk='AnonymousUser')` (sgp/forms.py:275). The model identifies accounts
by `user_id`, the login field, and compares that key with `Accounts.AnonymousUserId`.
This is an assumption: sgp/models.py:43 makes `user_id` a unique field, not the
primary key. With that schema the primary key is the automatic integer id, and
the framework converts `'AnonymousUser'` to an integer when it builds the query,
which raises an error, so the add-member form as written could not even be
constructed (see "## Left out").

`Projects.Str` models `Proyecto.__str__` (sgp/models.py:85-86): a project displays as its
name, unchanged.

`TeamForms.RemoveThenSaveRestores` records how removal interacts with saving a row.
Validation of a row marked for removal deletes the membership (sgp/forms.py:240-241).
Saving the same row re-assigns the selected role (sgp/forms.py:245-246). The role
field is required, so a valid row always has a selection. If both steps run, the
member is therefore restored. Whether the view saves rows marked for removal is
not part of this model.

## Model

| member | source | states |
|---|---|---|
| Catalog.ParseProjectPerm | sgp/migrations/0002_auto_20210926_1103.py:17 | a codename resolves to the project permission carrying it, and to nothing exactly when none of the five carries it |
| Catalog.ProjectCodenameRoundTrip | sgp/migrations/0002_auto_20210926_1103.py:17 | every project permission is found again from its codename |
| Catalog.ProjectCatalogComplete | sgp/migrations/0002_auto_20210926_1103.py:17 | the declaration-order and codename-order listings hold every project permission exactly once |
| Catalog.ParseGlobalPerm | sgp/models.py:57-61 | a codename resolves to the global permission carrying it, and to nothing exactly when none of the three carries it |
| Catalog.GlobalCodenameRoundTrip | sgp/models.py:57-61 | every global permission is found again from its codename |
| Catalog.GlobalCatalogExact | sgp/models.py:55-61 | the global catalog names exactly administrar, auditar and crear_proyecto, so no default add/change/delete/view permission exists |
| Catalog.Exclude | sgp/forms.py:164 | excluding a codename keeps exactly the listed permissions with a different codename |
| Catalog.OnlyVistaIsVista | sgp/forms.py:156 | only `vista` has the codename "vista" |
| Catalog.ExcludeVista | sgp/forms.py:164 | excluding "vista" from the codename-ordered catalog leaves administrar_equipo, desarrollo, gestionar_proyecto, pila_producto, in that order |
| Catalog.EditablePerms | sgp/forms.py:164 | the role forms iterate over exactly the project permissions other than `vista` |
| PermissionSets.Grant | sgp/forms.py:50 | granting a permission makes it held and changes nothing else (assumed contract of assign_perm and asignar_permiso) |
| PermissionSets.Revoke | sgp/forms.py:52 | revoking a permission makes it not held, without error when absent, and changes nothing else (assumed contract of remove_perm and quitar_permiso) |
| PermissionSets.ApplyChecks | sgp/forms.py:169-173 | after the edit loop each listed permission is held iff checked, and every unlisted one is as before |
| PermissionSets.AddChecked | sgp/forms.py:177-179 | the creation loop only adds; the result is the prior set plus the checked listed permissions |
| Accounts.Insert | sgp/models.py:43-44 | saving a user fails iff its user_id or email is already taken; otherwise the table gains exactly that row |
| Accounts.CreateUser | sgp/models.py:7-19 | create_user yields an active, non-staff, non-superuser account with exactly the given user_id, email, nombre and apellido, no global permissions and an empty password field; it fails iff user_id or email is taken |
| Accounts.CreateSuperuser | sgp/models.py:21-34 | create_superuser yields the same account with is_superuser set, under the same failure condition |
| Accounts.SuperuserIsFlaggedUser | sgp/models.py:21-34 | the two constructors succeed together and their results differ only in the superuser flag |
| Accounts.PasswordNotRead | sgp/models.py:7-34 | neither constructor's result depends on the password argument |
| Projects.ParseStatus | sgp/models.py:70-75 | a stored status code reads back as the choice carrying it, and as nothing exactly when it is none of the four |
| Projects.StatusRoundTrip | sgp/models.py:70-75 | every status choice is read back from its code |
| Projects.Str | sgp/models.py:85-86 | a project displays as its name, unchanged |
| Projects.StrDeterminedByName | sgp/models.py:85-86 | two projects display alike iff they carry the same name, whatever their other fields |
| UserForms.ResolveAll | sgp/forms.py:48 | resolving codenames keeps exactly the global permissions whose codename is listed |
| UserForms.UserFormOrder | sgp/forms.py:48 | the user form's save loop walks all three global permissions |
| UserForms.AllGlobalIn | sgp/models.py:57-61 | a sequence holding the three global permissions holds every global permission |
| UserForms.GlobalPermsExt | sgp/models.py:57-61 | a global permission set is determined by which of the three permissions it holds |
| UserForms.SaveUserForm | sgp/forms.py:47-53 | after saving, the user holds crear_proyecto, administrar and auditar each iff its box was ticked; the names are replaced and no other field changes |
| UserForms.SaveUserFormForgetsPrior | sgp/forms.py:48-52 | the saved global permissions depend only on the form, so saving is idempotent |
| RoleForms.CheckedPermsFields | sgp/forms.py:148-151 | each of the four checkboxes stands for its own permission and none stands for `vista` |
| RoleForms.InitialData | sgp/forms.py:155-158 | the form for a stored role shows its name and ticks exactly the non-`vista` permissions it holds |
| RoleForms.CheckedPermsOfHeld | sgp/forms.py:157-158 | ticking the boxes of held permissions reproduces the held set minus `vista` |
| RoleForms.SaveRole | sgp/forms.py:163-179 | a stored role keeps identity and project, holds each of the four editable permissions iff ticked (administrar_equipo always when it is the acting user's role), and keeps `vista` as it was; a new role holds exactly the ticked permissions with no coercion |
| RoleForms.EditedPerms | sgp/forms.py:169-173 | the edit loop over the editable permissions never touches `vista` and sets every other permission to its checkbox |
| RoleForms.AddedIsChecked | sgp/forms.py:177-179 | what the creation loop adds to an empty set is exactly the ticked permissions |
| RoleForms.PermsExt | sgp/migrations/0002_auto_20210926_1103.py:17 | a role's permission set is determined by which of the five catalog permissions it holds |
| RoleForms.UnchangedFormKeepsRole | sgp/forms.py:155-173 | submitting the initial form unchanged leaves a role as it was, except that the acting user's own role gains administrar_equipo if it lacked it |
| RoleForms.SaveRoleIdempotent | sgp/forms.py:163-173 | saving the same form twice equals saving it once |
| RoleForms.ScrumMasterSelfEdit | sgp/forms.py:167-173 | a role holding administrar_equipo and gestionar_proyecto, saved with only gestionar_proyecto ticked, keeps both when it is the acting user's role and loses administrar_equipo otherwise |
| Roles.RolesOf | sgp/forms.py:217-219 | the role query returns exactly the roles of the project holding the required permissions |
| Roles.FindRole | sgp/forms.py:246 | resolving a role name within a project yields a role of that project with that name, and nothing exactly when none exists |
| Roles.FindRoleByOwnName | sgp/forms.py:280 | when names are unique within the project, a role's own name resolves back to that role |
| Roles.FindRoleWhenUnique | sgp/forms.py:280 | the same, as an implication usable without its hypotheses |
| Roles.AsignarRol | sgp/forms.py:246 | assigning by name inserts or overwrites only the member's entry with a role of the project carrying that name, and fails with RoleNotFound exactly when there is none |
| Roles.QuitarRol | sgp/forms.py:241 | removing a member deletes exactly that entry and leaves every other entry unchanged |
| Roles.MembershipKeepsTeamInProject | sgp/forms.py:240-246 | adding, reassigning or removing members keeps every member on a role of the project |
| TeamForms.UserRoleFormInit | sgp/forms.py:212-224 | one's own row offers exactly the project's roles holding administrar_equipo, any other row all of the project's roles, never another project's; the current role is preselected and a non-member has no row |
| TeamForms.UserRoleClean | sgp/forms.py:239-242 | a row marked for removal takes exactly that user off the team; otherwise the team is unchanged |
| TeamForms.UserRoleSave | sgp/forms.py:244-247 | saving a row with a selected role fails iff no role of the project has its name, otherwise puts the user on a role of the project carrying that name (exactly the selected role when no other role of the project shares its name) and changes no other member |
| TeamForms.SelfEditKeepsAdmin | sgp/forms.py:215-246 | when role names are unique within the project, whatever role the acting user picks on their own row, after saving they hold a role with administrar_equipo |
| TeamForms.DuplicateNameLockout | sgp/forms.py:215-246 | with two roles of a project sharing a name, the acting user who picks the one holding administrar_equipo on their own row is saved onto the other, which lacks it |
| TeamForms.UserRoleSaveById | sgp/forms.py:244-247 | saving a row by role identity makes the selected role the user's role and changes no other member |
| TeamForms.SelfEditKeepsAdminById | sgp/forms.py:196-198 | with assignment by identity, whatever role the acting user picks on their own row they end on it, and it holds administrar_equipo, for any role names |
| TeamForms.RemoveThenSaveRestores | sgp/forms.py:240-246 | when role names are unique within the project, removing a row's user in validation and then saving the row with its selected role puts the user back on that role |
| TeamForms.CandidateUsers | sgp/forms.py:273-275 | the addable users are exactly those with no role in the project, minus the anonymous placeholder |
| TeamForms.AgregarMiembroInit | sgp/forms.py:270-277 | the add-member form offers exactly the users outside the team (minus the placeholder) and exactly the project's roles |
| TeamForms.AgregarMiembroSave | sgp/forms.py:279-280 | adding a member succeeds iff the chosen role's name exists in the project, puts the user on a role of the project carrying that name, and changes no other entry |
| TeamForms.AddMemberGrowsTeam | sgp/forms.py:273-280 | when role names are unique within the project, a user and role picked from the form's choices make the team grow by exactly that user, on exactly that role |
| TeamForms.DuplicateNameWrongRole | sgp/forms.py:273-280 | with two roles of a project sharing a name, picking the second on the add-member form adds the user on the first |
| TeamForms.AgregarMiembroSaveById | sgp/forms.py:279-280 | adding a member by role identity puts exactly that user on exactly the chosen role and changes no other member |
| TeamForms.AddMemberGrowsTeamById | sgp/forms.py:273-280 | with assignment by identity, a user and role picked from the form's choices make the team grow by exactly that user on exactly that role of the project, for any role names |
| DateForms.ProyectoClean | sgp/forms.py:96-116 | the start date is flagged iff in the past; the end date iff in the past, or else both dates are acceptable and misordered; the sprint length iff both dates are acceptable and ordered, a non-zero length was given and one sprint overruns the end |
| DateForms.LockedPastStartRejected | sgp/forms.py:80-83 | a started project whose stored start date is before today gets InicioEnPasado on every save, whatever the other fields |
| DateForms.ProyectoCleanLocked | sgp/forms.py:96-116 | with the start date locked, no error is reported on it, the end date and sprint length are checked against it as before, and with the start unlocked the result is the project form's |
| DateForms.SprintClean | sgp/forms.py:324-338 | the same start and end date rules, with no sprint-length error |
| DateForms.AtMostOneErrorPerField | sgp/forms.py:102-114 | each field receives at most one error in both forms |
| DateForms.ProyectoAcceptsIff | sgp/forms.py:102-114 | the project form reports nothing iff the given dates are not past, ordered, and leave room for one sprint of any non-zero given length |
| DateForms.SameDayAccepted | sgp/forms.py:108 | start and end on the same non-past day are accepted when no sprint length is given |
| DateForms.SprintIsProyectoWithoutLength | sgp/forms.py:326-336 | the sprint form reports exactly what the project form reports with no or zero sprint length |

## Findings

| source | as written | input that shows it | evidently intended | confidence | as-written member | corrected member |
|---|---|---|---|---|---|---|
| sgp/forms.py:246 | the member row saves the selected role by its name, so the name is resolved again inside the project | roles `X` (id 1, no permissions) and `X` (id 2, administrar_equipo) in project 7; user `a` on role 2 picks role 2 on their own row and ends on role 1 | the selected role itself is assigned, so the guard of sgp/forms.py:196-198 holds | low to medium, not executed; depends on how the role helper resolves a duplicated name | TeamForms.DuplicateNameLockout | TeamForms.SelfEditKeepsAdminById |
| sgp/forms.py:80-83 | a started project's start date is a disabled field, so `clean` receives the stored date and checks it against today (sgp/forms.py:102-103) | a started project whose start date was yesterday: every save reports `InicioEnPasado` on a field the user cannot change | the past-date check applies only to a start date the user can still edit | medium, not executed; relies on the framework cleaning a disabled field's initial value | DateForms.LockedPastStartRejected | DateForms.ProyectoCleanLocked |
| sgp/forms.py:280 | the add-member form assigns the chosen role by its name | the same two roles named `X`; user `b` added with role 2 is put on role 1 | the chosen role itself is assigned | low to medium, not executed; depends on how the role helper resolves a duplicated name | TeamForms.DuplicateNameWrongRole | TeamForms.AddMemberGrowsTeamById |

## Left out

- Database persistence, querysets, transactions and `save(commit)` are left out. Tables are in-memory sequences and maps.
- The role model, the membership model and their helper methods are not part of this model. Their behaviour is assumed as described above, not verified.
- TeamForms.UserRoleSave: assigns exactly the selected role only under the hypothesis that no other role of the project shares its name; without it the first role of that name is assigned (see "## Findings").
- TeamForms.SelfEditKeepsAdmin: holds only under the hypothesis that role names are unique within the project; `TeamForms.DuplicateNameLockout` shows the failure without it.
- TeamForms.RemoveThenSaveRestores: holds only under the hypothesis that role names are unique within the project.
- TeamForms.AddMemberGrowsTeam: puts the user on exactly the chosen role only under the hypothesis that role names are unique within the project; `TeamForms.DuplicateNameWrongRole` shows the failure without it.
- TeamForms.CandidateUsers: assumes the user's primary key is `user_id`; sgp/models.py:43 declares `user_id` as a unique field and leaves the primary key as the automatic integer id, and with that schema the `pk='AnonymousUser'` filter at sgp/forms.py:275 raises when the query is built instead of excluding anything.
- TeamForms.AgregarMiembroInit: inherits the same assumption that the user's primary key is `user_id`; under the declared schema building the form raises instead.
- DateForms.ProyectoClean: does not model the error sgp/forms.py:113 raises when `fecha_inicio + timedelta(days=duracion_sprint)` leaves the date range (past 31/12/9999, or a length beyond 999999999 days); there `clean` raises instead of reporting, while the model reports `SinTiempoParaSprint` whenever the sum passes the end date.
- Projects.Proyecto: typing `status` as an optional choice describes validated rows; the choices are checked by form or model validation, not when a row is saved, so a raw stored code is read through `Projects.ParseStatus`.
- Roles.FindRole: takes the first role with the requested name when several roles of a project share it. The real helper may instead fail on duplicates. The properties of the team forms therefore assume unique role names per project.
- The framework rule that a superuser passes every permission check, used for the initial checkbox values of the user form (sgp/forms.py:45), is framework behaviour. It is not modelled.
- The user form's `__init__` initial values are not modelled. Disabled fields ignore the submitted value and clean their initial value instead. For the disabled e-mail this means it is never written, which `UserForms.SaveUserForm` states. For the disabled administrar_equipo box on one's own role, the save-time coercion gives the same result. For the disabled start date of a started project (sgp/forms.py:80-83), `clean` receives the stored start date, so once that date is past every save is rejected (see "## Findings"); `DateForms.ProyectoClean` takes the start date as given and does not model which value the form substitutes.
- The debug print in the role form is output only. Labels and error-message texts are replaced by the `DateError` constructors.
- `timezone.localdate()` is replaced by the `today` parameter, and `datetime` arithmetic by integer day numbers. Date range limits (year 1 to 9999) are not modelled.
- Field-level parsing and validation happen before `clean`: date format, and the `min_value=0` of the sprint length. They are represented by `None` for an unparsed field and a `nat` length.
- Field length limits (`max_length`, sgp/models.py:43-46) are not modelled: field-level validation runs before save and is not modelled.
- `Proyecto.Duracion_sprint` at sgp/models.py:79 binds the field class itself, not a field instance, so it declares no column. It is not modelled.
- The file-upload form and the user-story form hold no logic beyond field declarations. They are left out.
- The migration's table definitions are left out. Only its project permission list is used, as the project catalog.
- Concurrency is left out: every operation is a single pure step.
