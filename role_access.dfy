/**
 * Access decisions for user roles. The permissions the account holds (what
 * `user_access` answers) are a set of permission names.
 */
module RoleAccess {

  const AdministerPermissions := "administer permissions"

  /** A role's id: the two built-in roles, or any other role by name. */
  datatype RoleId = Anonymous | Authenticated | Named(name: string)

  /** The built-in roles that every site has. */
  predicate IsLocked(id: RoleId)
  {
    id == Anonymous || id == Authenticated
  }

  /** Deleting a built-in role is refused; every other request, a delete
      included once it passes that test, is decided by the permission to
      administer permissions. */
  function CheckAccess(id: RoleId, operation: string, langcode: string, permissions: set<string>): (r: bool)
    ensures operation == "delete" && IsLocked(id) ==> !r
    ensures operation == "delete" && !IsLocked(id) ==> (r <==> AdministerPermissions in permissions)
    ensures operation != "delete" ==> (r <==> AdministerPermissions in permissions)
  {
    if operation == "delete" && IsLocked(id) then false
    else AdministerPermissions in permissions
  }

  /** A grant always rests on the administer permission. */
  lemma GrantNeedsAdminister(id: RoleId, operation: string, langcode: string, permissions: set<string>)
    requires CheckAccess(id, operation, langcode, permissions)
    ensures AdministerPermissions in permissions
  {
  }

  /** The decision does not depend on the language. */
  lemma IgnoresLangcode(id: RoleId, operation: string, a: string, b: string, permissions: set<string>)
    ensures CheckAccess(id, operation, a, permissions) == CheckAccess(id, operation, b, permissions)
  {
  }
}
