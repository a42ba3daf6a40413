/** Role gating of the product screen's actions.

    The current `userType` comes from the shared user state as an arbitrary string.
    Only two values are special: "viewer" loses Edit and Add, and "admin" alone gains
    Delete. Every other string, unrecognised ones included, is treated as an editor.
 */
module Roles {

  const Viewer := "viewer"
  const Admin := "admin"

  /** The buttons a table row can show, in the order they are rendered. */
  datatype RowButton = EditButton | ViewButton | DeleteButton

  /** The actions the screen offers to a user. */
  datatype Permissions = Permissions(canView: bool, canEdit: bool, canAdd: bool, canDelete: bool)

  /** Whether a row shows the Edit button. */
  predicate CanEdit(userType: string)
  {
    userType != Viewer
  }

  /** Whether the card header shows the Add Product button. */
  predicate CanAdd(userType: string)
  {
    userType != Viewer
  }

  /** Whether a row shows the Delete button. */
  predicate CanDelete(userType: string)
  {
    userType == Admin
  }

  function PermissionsOf(userType: string): (p: Permissions)
    ensures p.canView
    ensures p.canEdit == p.canAdd
    ensures p.canDelete ==> p.canEdit
  {
    Permissions(true, CanEdit(userType), CanAdd(userType), CanDelete(userType))
  }

  /** The actions cell of one row: Edit (if allowed), View, Delete (if allowed). */
  function RowButtons(userType: string): (bs: seq<RowButton>)
    ensures ViewButton in bs
    ensures EditButton in bs <==> PermissionsOf(userType).canEdit
    ensures DeleteButton in bs <==> PermissionsOf(userType).canDelete
    ensures forall i, j :: 0 <= i < j < |bs| ==> bs[i] != bs[j]
    ensures forall i, j :: 0 <= i < j < |bs| ==> Rank(bs[i]) < Rank(bs[j])
  {
    (if CanEdit(userType) then [EditButton] else [])
    + [ViewButton]
    + (if CanDelete(userType) then [DeleteButton] else [])
  }

  /** Position of a button kind in the rendered order. */
  function Rank(b: RowButton): nat
  {
    match b
    case EditButton => 0
    case ViewButton => 1
    case DeleteButton => 2
  }

  /** The three role classes: a viewer may only look, an admin may do everything,
      and every other value of `userType` may do everything except delete. */
  lemma RolePolicy(userType: string)
    ensures userType == Viewer ==> PermissionsOf(userType) == Permissions(true, false, false, false)
    ensures userType == Admin ==> PermissionsOf(userType) == Permissions(true, true, true, true)
    ensures userType != Viewer && userType != Admin ==>
              PermissionsOf(userType) == Permissions(true, true, true, false)
  {
  }

  /** Exactly the three buttons each role class sees in a row. */
  lemma RowButtonsByRole(userType: string)
    ensures userType == Viewer ==> RowButtons(userType) == [ViewButton]
    ensures userType == Admin ==> RowButtons(userType) == [EditButton, ViewButton, DeleteButton]
    ensures userType != Viewer && userType != Admin ==> RowButtons(userType) == [EditButton, ViewButton]
  {
  }
}
