/**
 * Access decisions for shortcut sets. The permissions the account holds
 * (what `user_access` answers) are a set of permission names, and the set
 * the account currently has displayed is given by its id.
 */
module ShortcutAccess {
  import opened Wrappers

  const AdministerShortcuts := "administer shortcuts"
  const CustomizeShortcutLinks := "customize shortcut links"
  const DefaultSetId := "default"

  /** The decision for `operation` on the set with id `entity` (None when no
      set is given): Some(true) grants, Some(false) denies, None (PHP's NULL)
      leaves the decision to others. Deleting needs a set to ask its id. */
  function CheckAccess(entity: Option<string>, operation: string, langcode: string,
                       permissions: set<string>, displayedSet: string): (r: Option<bool>)
    requires operation == "delete" ==> entity.Some?
    ensures operation != "edit" && operation != "delete" ==> r == None
    ensures operation == "edit" && AdministerShortcuts in permissions ==> r == Some(true)
    ensures operation == "edit" && AdministerShortcuts !in permissions && CustomizeShortcutLinks in permissions ==>
      r == Some(entity.None? || entity.value == displayedSet)
    ensures operation == "edit" && AdministerShortcuts !in permissions && CustomizeShortcutLinks !in permissions ==>
      r == Some(false)
    ensures operation == "delete" && AdministerShortcuts !in permissions ==> r == Some(false)
    ensures operation == "delete" && AdministerShortcuts in permissions ==> r == Some(entity.value != DefaultSetId)
  {
    match operation
    case "edit" =>
      if AdministerShortcuts in permissions then Some(true)
      else if CustomizeShortcutLinks in permissions then Some(entity.None? || entity.value == displayedSet)
      else Some(false)
    case "delete" =>
      if AdministerShortcuts !in permissions then Some(false)
      else Some(entity.value != DefaultSetId)
    case _ => None
  }

  /** The default set cannot be deleted, whatever the account may do. */
  lemma DefaultSetNeverDeleted(langcode: string, permissions: set<string>, displayedSet: string)
    ensures CheckAccess(Some(DefaultSetId), "delete", langcode, permissions, displayedSet) == Some(false)
  {
  }

  /** More permissions never take a grant away. */
  lemma GrantIsMonotone(entity: Option<string>, operation: string, langcode: string,
                        fewer: set<string>, more: set<string>, displayedSet: string)
    requires operation == "delete" ==> entity.Some?
    requires fewer <= more
    requires CheckAccess(entity, operation, langcode, fewer, displayedSet) == Some(true)
    ensures CheckAccess(entity, operation, langcode, more, displayedSet) == Some(true)
  {
  }

  /** The decision does not depend on the language. */
  lemma IgnoresLangcode(entity: Option<string>, operation: string, a: string, b: string,
                        permissions: set<string>, displayedSet: string)
    requires operation == "delete" ==> entity.Some?
    ensures CheckAccess(entity, operation, a, permissions, displayedSet) ==
            CheckAccess(entity, operation, b, permissions, displayedSet)
  {
  }
}
