/** The save loop shared by the permission forms: walk a fixed list of
    permissions and grant or revoke each one according to its checkbox.
    Granting and revoking are plain set insert and remove, which is what
    both the object-permission library and the role model's own
    grant/revoke helpers are taken to do. */
module PermissionSets {

  /** Granting one permission: it is held afterwards, nothing else changes. */
  function Grant<T(!new)>(held: set<T>, x: T): (r: set<T>)
    ensures x in r
    ensures forall y :: y != x ==> (y in r <==> y in held)
  {
    held + {x}
  }

  /** Revoking one permission: it is not held afterwards (no error when it
      was absent), nothing else changes. */
  function Revoke<T(!new)>(held: set<T>, x: T): (r: set<T>)
    ensures x !in r
    ensures forall y :: y != x ==> (y in r <==> y in held)
  {
    held - {x}
  }

  /** Editing an existing holder: every listed permission ends up held
      exactly when checked; unlisted ones are left as they were. */
  function ApplyChecks<T(!new)>(order: seq<T>, checked: set<T>, held: set<T>): (r: set<T>)
    ensures forall x :: x in order ==> (x in r <==> x in checked)
    ensures forall x :: x !in order ==> (x in r <==> x in held)
    decreases |order|
  {
    if order == [] then held
    else
      var step := if order[0] in checked then Grant(held, order[0]) else Revoke(held, order[0]);
      ApplyChecks(order[1..], checked, step)
  }

  /** Filling a freshly created holder: checked permissions are added and
      nothing is ever removed. */
  function AddChecked<T(!new)>(order: seq<T>, checked: set<T>, held: set<T>): (r: set<T>)
    ensures held <= r
    ensures forall x :: x in r <==> x in held || (x in order && x in checked)
    decreases |order|
  {
    if order == [] then held
    else
      var step := if order[0] in checked then Grant(held, order[0]) else held;
      AddChecked(order[1..], checked, step)
  }
}
