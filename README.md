# Drupal: pager state, plugin namespaces, field cardinality, access rules, scroll command

This project models six small pieces of a Drupal 8 development snapshot in
Dafny and proves properties of them:

- the state of a Views pager (`PagerPluginBase`): the current page, the counted
  total and the `items_per_page`, `offset` and `id` options, with the getters'
  fall-back to 0, the clamping of the current page, the offset subtracted from
  the count, and the "more records" test;
- the Drupal layer of annotated plugin discovery (`AnnotatedClassDiscovery`):
  the subdirectory written with backslashes, the two core annotation
  namespaces added with PHP's key-preserving `+=`, and the plugin namespace
  `<namespace>\Plugin\<subdir>` derived for each root namespace;
- the cardinality handling of the field settings form (`FieldEditForm`): the
  defaults of the "Limited/Unlimited" select and the number box, the
  "Number of values is required" check, and how a submission is resolved back
  to a cardinality and merged into the stored field key by key;
- the access rules for shortcut sets (`ShortcutAccessController`) and for user
  roles (`RoleAccessController`, with its `delete` case falling through into
  `default`);
- the `viewsScrollTop` AJAX command (`ScrollTopCommand`).

Modules, one per PHP file: `ViewsPager` (views_pager.dfy), `PluginDiscovery`
(plugin_discovery.dfy), `FieldEditForm` (field_edit_form.dfy),
`ShortcutAccess` (shortcut_access.dfy), `RoleAccess` (role_access.dfy),
`ScrollTop` (scroll_top_command.dfy), and `Wrappers` (wrappers.dfy) for the
`Option` type that stands for PHP's NULL.

Inputs that the PHP code obtains from elsewhere are parameters here:

- the result of the pager's count query is the integer `count` given to
  `ExecuteCountQuery`;
- the root-namespace iterator is the sequence of (namespace, directory) pairs it
  yields, in order; `DRUPAL_ROOT` is an opaque string `drupalRoot`;
- `user_access(p, $account)` is `p in permissions`; `shortcut_current_displayed_set`
  is the id `displayedSet`; entity comparison is comparison of ids;
- the stored field, which `submitForm` looks up by `field_name`, is the `field`
  argument of `SubmitForm`;
- `FIELD_CARDINALITY_UNLIMITED` is the constructor `Value.Unlimited`, distinct
  from every integer and string; `DRUPAL_ANONYMOUS_RID` and
  `DRUPAL_AUTHENTICATED_RID` are the constructors `RoleId.Anonymous` and
  `RoleId.Authenticated`.

PHP values in the field form are the datatype `Value` (NULL, Unlimited,
integer, string, boolean). PHP's `empty()` is `IsEmpty`: NULL, 0, "", "0" and
FALSE. A missing array key reads as NULL (`Get`).

## Model

| member | source | states |
|---|---|---|
| ViewsPager.PagerPluginBase.constructor | core/modules/views/lib/Drupal/views/Plugin/views/pager/PagerPluginBase.php:56-58 | a new pager has no current page (NULL) and a total of 0 |
| ViewsPager.PagerPluginBase.ItemsPerPage | core/modules/views/lib/Drupal/views/Plugin/views/pager/PagerPluginBase.php:71-73 | the `items_per_page` option when set, 0 when not |
| ViewsPager.PagerPluginBase.SetItemsPerPage | core/modules/views/lib/Drupal/views/Plugin/views/pager/PagerPluginBase.php:80-82 | only the `items_per_page` option changes; the getter then returns the new value; offset and id read as before; current page and total are outside its frame |
| ViewsPager.PagerPluginBase.Offset | core/modules/views/lib/Drupal/views/Plugin/views/pager/PagerPluginBase.php:90-92 | the `offset` option when set, 0 when not |
| ViewsPager.PagerPluginBase.SetOffset | core/modules/views/lib/Drupal/views/Plugin/views/pager/PagerPluginBase.php:97-99 | only the `offset` option changes; the getter then returns the new value; items per page and id read as before |
| ViewsPager.PagerPluginBase.CurrentPage | core/modules/views/lib/Drupal/views/Plugin/views/pager/PagerPluginBase.php:106-108 | the stored current page, NULL included |
| ViewsPager.PageNumber | core/modules/views/lib/Drupal/views/Plugin/views/pager/PagerPluginBase.php:117-122 | a non-negative integer argument is kept; a negative, non-numeric or omitted one becomes 0; the result is never negative |
| ViewsPager.PagerPluginBase.SetCurrentPage | core/modules/views/lib/Drupal/views/Plugin/views/pager/PagerPluginBase.php:117-122 | the current page becomes the argument's page number, so it is set and never negative; omitting the argument gives 0 |
| ViewsPager.PagerPluginBase.TotalItems | core/modules/views/lib/Drupal/views/Plugin/views/pager/PagerPluginBase.php:129-131 | the stored total |
| ViewsPager.PagerPluginBase.PagerId | core/modules/views/lib/Drupal/views/Plugin/views/pager/PagerPluginBase.php:136-138 | the `id` option when set, 0 when not |
| ViewsPager.PagerPluginBase.UsePager | core/modules/views/lib/Drupal/views/Plugin/views/pager/PagerPluginBase.php:163-165 | always true |
| ViewsPager.PagerPluginBase.UseCountQuery | core/modules/views/lib/Drupal/views/Plugin/views/pager/PagerPluginBase.php:172-174 | always true |
| ViewsPager.PagerPluginBase.ExecuteCountQuery | core/modules/views/lib/Drupal/views/Plugin/views/pager/PagerPluginBase.php:180-188 | the total becomes the count minus the offset when the offset is set and nonzero, the count otherwise (no clamping: it may be negative); the new total is returned; only the total changes |
| ViewsPager.IntVal | core/modules/views/lib/Drupal/views/Plugin/views/pager/PagerPluginBase.php:239 | `intval` of the current page: NULL reads as 0 |
| ViewsPager.PagerPluginBase.HasMoreRecords | core/modules/views/lib/Drupal/views/Plugin/views/pager/PagerPluginBase.php:237-240 | false when items per page is 0; otherwise true iff total > (current page, NULL as 0, + 1) × items per page |
| ViewsPager.PagerPluginBase.UsesExposed | core/modules/views/lib/Drupal/views/Plugin/views/pager/PagerPluginBase.php:248-250 | always false |
| ViewsPager.PagerPluginBase.ItemsPerPageExposed | core/modules/views/lib/Drupal/views/Plugin/views/pager/PagerPluginBase.php:252-254 | always false |
| ViewsPager.PagerPluginBase.OffsetExposed | core/modules/views/lib/Drupal/views/Plugin/views/pager/PagerPluginBase.php:256-258 | always false |
| PluginDiscovery.TranslateSubdir | core/lib/Drupal/Core/Plugin/Discovery/AnnotatedClassDiscovery.php:55 | same length as the input, no `/` left, each `/` became `\` and every other character is unchanged |
| PluginDiscovery.TranslateSubdirIdempotent | core/lib/Drupal/Core/Plugin/Discovery/AnnotatedClassDiscovery.php:55 | translating twice equals translating once |
| PluginDiscovery.TranslateSubdirWithoutSlashes | core/lib/Drupal/Core/Plugin/Discovery/AnnotatedClassDiscovery.php:55 | a subdirectory without `/` is left as it is |
| PluginDiscovery.WithDefaultAnnotationNamespaces | core/lib/Drupal/Core/Plugin/Discovery/AnnotatedClassDiscovery.php:57-60 | both core annotation namespaces are present; every caller entry is kept with its own value; an added key is one of the two defaults with `<root>/core/lib`; keys are the caller's plus the two defaults |
| PluginDiscovery.AnnotatedClassDiscovery.constructor | core/lib/Drupal/Core/Plugin/Discovery/AnnotatedClassDiscovery.php:54-63 | stores the translated subdir, the roots, the annotation namespaces with the defaults added, an empty plugin-namespace map and the annotation name |
| PluginDiscovery.PluginNamespaceKey | core/lib/Drupal/Core/Plugin/Discovery/AnnotatedClassDiscovery.php:71 | the key starts with the root namespace and continues with `\Plugin\` and the subdir |
| PluginDiscovery.PluginNamespaceKeyInjective | core/lib/Drupal/Core/Plugin/Discovery/AnnotatedClassDiscovery.php:71 | different root namespaces give different keys |
| PluginDiscovery.AnnotatedClassDiscovery.GetPluginNamespaces | core/lib/Drupal/Core/Plugin/Discovery/AnnotatedClassDiscovery.php:68-75 | the loop over the roots produces `PluginNamespaceMap`, the reference map in which each root, in order, sets its key to `[dir]`; every key comes from some root |
| PluginDiscovery.NoRootsNoNamespaces | core/lib/Drupal/Core/Plugin/Discovery/AnnotatedClassDiscovery.php:69-74 | no roots give the empty map |
| PluginDiscovery.PluginNamespaceMapKeys | core/lib/Drupal/Core/Plugin/Discovery/AnnotatedClassDiscovery.php:70-72 | a key is in the map iff it is the plugin namespace of some root |
| PluginDiscovery.PluginNamespaceMapLastWins | core/lib/Drupal/Core/Plugin/Discovery/AnnotatedClassDiscovery.php:70-72 | the value under a root's key is the one-element list of the directory of the last root with that namespace |
| PluginDiscovery.PluginNamespaceMapSuffix | core/lib/Drupal/Core/Plugin/Discovery/AnnotatedClassDiscovery.php:71 | every key ends with `\Plugin\` followed by the subdir |
| PluginDiscovery.PluginNamespaceMapSizeAtMost | core/lib/Drupal/Core/Plugin/Discovery/AnnotatedClassDiscovery.php:69-74 | never more entries than roots |
| PluginDiscovery.PluginNamespaceMapSizeDistinct | core/lib/Drupal/Core/Plugin/Discovery/AnnotatedClassDiscovery.php:69-74 | exactly one entry per root when the root namespaces are distinct |
| FieldEditForm.Get | core/modules/field_ui/lib/Drupal/field_ui/Form/FieldEditForm.php:137-138 | a present key gives its value, a missing one NULL |
| FieldEditForm.SelectDefault | core/modules/field_ui/lib/Drupal/field_ui/Form/FieldEditForm.php:78 | Unlimited iff the cardinality is Unlimited, `'number'` otherwise |
| FieldEditForm.NumberDefault | core/modules/field_ui/lib/Drupal/field_ui/Form/FieldEditForm.php:82 | the cardinality when limited, 1 when Unlimited; never Unlimited |
| FieldEditForm.FormDefaults | core/modules/field_ui/lib/Drupal/field_ui/Form/FieldEditForm.php:78-98 | the elements' values of a built form, before the user edits them: the two cardinality defaults and `field_name`, `type`, `module`, `active` copied from the field, and nothing else |
| FieldEditForm.CardinalityError | core/modules/field_ui/lib/Drupal/field_ui/Form/FieldEditForm.php:121-125 | an error iff `'number'` is selected and the number is empty in PHP's sense |
| FieldEditForm.UnlimitedNeverErrs | core/modules/field_ui/lib/Drupal/field_ui/Form/FieldEditForm.php:123 | choosing Unlimited never raises the error |
| FieldEditForm.DefaultsValidate | core/modules/field_ui/lib/Drupal/field_ui/Form/FieldEditForm.php:121-125 | the defaults of an Unlimited or positive cardinality pass validation; those of cardinality 0 fail it |
| FieldEditForm.ResolveCardinality | core/modules/field_ui/lib/Drupal/field_ui/Form/FieldEditForm.php:137-142 | the number when `'number'` is selected, the selected value otherwise |
| FieldEditForm.CardinalityRoundTrip | core/modules/field_ui/lib/Drupal/field_ui/Form/FieldEditForm.php:137-142 | resolving the defaults built from any cardinality gives that cardinality back |
| FieldEditForm.MergedValues | core/modules/field_ui/lib/Drupal/field_ui/Form/FieldEditForm.php:137-143 | the merged values hold the resolved cardinality, no `container` key, and every other submitted key with its value |
| FieldEditForm.SavedField | core/modules/field_ui/lib/Drupal/field_ui/Form/FieldEditForm.php:145-149 | every merged value overwrites the field's entry; field entries under other keys are untouched; no other keys |
| FieldEditForm.SubmitDefaultsKeepsField | core/modules/field_ui/lib/Drupal/field_ui/Form/FieldEditForm.php:95-98 | submitting the elements' values of a built form, before the user edits them, keeps the field's cardinality and its `field_name`, `type`, `module` and `active` |
| FieldEditForm.SubmitForm | core/modules/field_ui/lib/Drupal/field_ui/Form/FieldEditForm.php:131-149 | the key-by-key loop produces the merged field: resolved cardinality, every submitted key but `container`, and the field's own entries where nothing (or only `container`) was submitted |
| ShortcutAccess.CheckAccess | core/modules/shortcut/lib/Drupal/shortcut/ShortcutAccessController.php:22-40 | edit: granted with `administer shortcuts`; otherwise with `customize shortcut links` granted iff no set is given or it is the displayed set; otherwise denied. delete: denied without `administer shortcuts`, else granted iff the id is not `default`. Other operations: no decision |
| ShortcutAccess.DefaultSetNeverDeleted | core/modules/shortcut/lib/Drupal/shortcut/ShortcutAccessController.php:37 | deleting the `default` set is denied even to administrators |
| ShortcutAccess.GrantIsMonotone | core/modules/shortcut/lib/Drupal/shortcut/ShortcutAccessController.php:22-40 | holding more permissions never turns a grant into a denial or no decision |
| ShortcutAccess.IgnoresLangcode | core/modules/shortcut/lib/Drupal/shortcut/ShortcutAccessController.php:22 | the decision is the same for every language |
| RoleAccess.CheckAccess | core/modules/user/lib/Drupal/user/RoleAccessController.php:22-32 | deleting the anonymous or authenticated role is denied; deleting any other role, and every other operation, is granted iff the account has `administer permissions`; the answer is always a boolean |
| RoleAccess.GrantNeedsAdminister | core/modules/user/lib/Drupal/user/RoleAccessController.php:29-30 | no grant without `administer permissions` |
| RoleAccess.IgnoresLangcode | core/modules/user/lib/Drupal/user/RoleAccessController.php:22 | the decision is the same for every language |
| ScrollTop.ScrollTopCommand.constructor | core/modules/views/lib/Drupal/views/Ajax/ScrollTopCommand.php:32-34 | stores exactly the given selector |
| ScrollTop.ScrollTopCommand.Render | core/modules/views/lib/Drupal/views/Ajax/ScrollTopCommand.php:39-44 | a record with exactly the keys `command` and `selector`, `command` always `viewsScrollTop`, `selector` the stored selector; a read-only function, so repeated calls give equal records |

## Left out

- The execution of the pager's count query and its database connection: the count is an input integer.
- The pager's empty hooks (`query`, `pre_execute`, `postExecute`, `pre_render`, `render`, the option-form and exposed-form hooks) do nothing and are not modelled; `update_page_info` is kept as the empty method `UpdatePageInfo` that `ExecuteCountQuery` calls.
- `summaryTitle`: it only returns a translated string.
- ViewsPager.PagerPluginBase.SetCurrentPage: the method's doc comment says an omitted argument takes the page from the global page array, but its code stores 0; the model follows the code.
- ViewsPager.PagerPluginBase.SetCurrentPage: numeric strings and floats that PHP's `is_numeric` accepts are not modelled; an argument is an integer, omitted, or not numeric.
- ViewsPager.PagerPluginBase.ItemsPerPage: the options hold integers only, and a key set to NULL (which `isset` treats as unset) is not modelled.
- PluginDiscovery.AnnotatedClassDiscovery.GetPluginNamespaces: the key order of the returned PHP array is not modelled; PHP keeps a repeated namespace at the position of its first occurrence, and the generic component scans in that order, which can decide which plugin wins a duplicate id.
- PluginDiscovery.WithDefaultAnnotationNamespaces: the key order is not modelled; PHP's `+=` puts the missing defaults after the caller's entries.
- The generic component's directory scan, annotation parsing and definition caching: that class is not part of this model. `DRUPAL_ROOT` is an opaque string.
- FieldEditForm.SelectDefault: PHP compares the cardinality with `FIELD_CARDINALITY_UNLIMITED` loosely (`==`); with Unlimited as an abstract value, a string that would compare loosely equal to it is not modelled.
- FieldEditForm.SubmitDefaultsKeepsField: posted values are taken with the types of the defaults; a browser posts the select and the number box as strings ("3", "-1"), and in PHP the saved cardinality is then only loosely equal (`==`) to the original, not identical.
- `field_has_data`, the module's `field_settings_form` hook, titles, messages, markup strings, `#states`, `form_load_include`, the field lookup by name, `$field->save()` with its exception handling, and the redirect.
- `user_access`, `shortcut_current_displayed_set` and the role-id constants are inputs, not implementations.
- ShortcutAccess.CheckAccess: deleting without a set is excluded by its requires, since the PHP code then calls `id()` on NULL; the PHP type hint in fact admits no NULL entity at all, so the PHP code's "no set given" branch of `edit` is modelled as written although PHP callers cannot reach it.
