# Charcoal admin: a verified model of its data-shaping rules

The Charcoal admin module is the back office of the Charcoal PHP framework:
widgets (object tables, forms, form groups, graphs), property inputs
(selects, tickable inputs, colour and date pickers, the TinyMCE editor),
actions (object update, selectize load), command-line scripts (the
translation script) and, in the browser, the selectize pickers for
objects and e-mail addresses. Under its calls into the framework this
code holds a set of self-contained, deterministic rules: how a table's
properties, actions and columns are configured, how a form group resolves
its structure, how an object form merges its groups, how a graph fills the
gaps between dates, how the translation script collects and merges
strings, how an update action separates request parameters from object
data, how inputs assemble their options, and how the pickers build their
selectize settings and their saved values.

This project models those rules in Dafny, mostly one module per source
file (`Graph` covers the two graph widget files and `FormGroup` the two
form group files), with shared helper modules (`Php`, `Js`, `Str`,
`KeySort`) besides:
pure rules as functions with lemmas, objects whose setters update fields
as classes whose methods state their whole new state. Framework services
(Mustache rendering, the translator, `camelize`, `class_exists`, the model
and collection loaders, the ACL, `uniqid`, the query string, JSON
encoding, metadata loading, the database) are parameters of the members
that use them. The module `Php` models the PHP values and array
operations the source relies on (ordered arrays with string keys,
`array_merge`, `array_replace`, `array_filter`, truthiness, loose
comparison, `is_numeric`); `Js` does the same for JavaScript values and
objects; `Str` holds string helpers and their byte order; `KeySort`
models `ksort`.

TableWidget.php as written does not compile under PHP 7 and later (a
`continue` outside any loop, see "## Findings"); the `TableWidget` module
models the evidently intended code.

## Model

| member | source | states |
|---|---|---|
| TableWidget.Flip | src/Charcoal/Admin/Widget/TableWidget.php:268-272 | `array_flip` of a property list keys each ident once, in order of first occurrence, with no duplicate keys |
| TableWidget.FlipIndexes | src/Charcoal/Admin/Widget/TableWidget.php:268-272 | every flipped ident maps to an integer index of the list that holds that ident |
| TableWidget.FlipLast | src/Charcoal/Admin/Widget/TableWidget.php:268-272 | an ident listed more than once keeps the index of its last occurrence, as `array_flip` overwrites it |
| TableWidget.ListedPropertiesSelect | src/Charcoal/Admin/Widget/TableWidget.php:275-280 | with a non-empty list, the selected properties are exactly the listed idents in list order; a listed ident known to the metadata keeps its metadata, an unknown one keeps its list index, an unlisted one is absent |
| TableWidget.ConfiguredList | src/Charcoal/Admin/Widget/TableWidget.php:260-269 | a list configured in `admin.lists` is only consulted when the collection ident or its fallback is truthy |
| TableWidget.ViewOptions | src/Charcoal/Admin/Widget/TableWidget.php:336-353 | an empty ident gives an empty array; otherwise the `view_options` of the property's options when set |
| TableWidget.CellClassList | src/Charcoal/Admin/Widget/TableWidget.php:427-446 | the class list is never empty and starts with `property-<ident>` |
| TableWidget.CellClassesKept | src/Charcoal/Admin/Widget/TableWidget.php:398-415 | the cell's joined class string is always kept (never unset) and starts with `property-<ident>` |
| TableWidget.ColumnOf | src/Charcoal/Admin/Widget/TableWidget.php:360-386 | a column carries its property's ident and a class string starting with `property-<ident>` |
| TableWidget.CollectionColumns | src/Charcoal/Admin/Widget/TableWidget.php:360-386 | one column per selected property, in order, each equal to its `ColumnOf` |
| TableWidget.ComparePriority | src/Charcoal/Admin/Widget/TableWidget.php:927-933 | the comparator never answers 0 and answers -1 exactly when the first priority (missing counts as 0, an integer string counts as its value) is lower |
| TableWidget.PriorityNumericString | src/Charcoal/Admin/Widget/TableWidget.php:929-932 | a priority given as the string of an integer weighs as that integer under the loose `<`, so `"10"` sorts after `5` |
| Php.IntegerStringRoundTrip | src/Charcoal/Admin/Widget/TableWidget.php:929-932 | an integer written as a string reads back as the same integer in a numeric comparison |
| TableWidget.InsertByPriority | src/Charcoal/Admin/Widget/TableWidget.php:648 | inserting one action adds exactly that action to the multiset of actions |
| TableWidget.InsertKeepsSorted | src/Charcoal/Admin/Widget/TableWidget.php:648 | inserting into a priority-sorted list keeps it sorted |
| TableWidget.SortByPriority | src/Charcoal/Admin/Widget/TableWidget.php:648 | `uasort` with the comparator yields a permutation of the actions (keys kept with their actions) with non-decreasing priority |
| TableWidget.PermutationKeepsEntries | src/Charcoal/Admin/Widget/TableWidget.php:684 | a reordering keeps every key/action pair and every key |
| TableWidget.ResolveActiveIdent | src/Charcoal/Admin/Widget/TableWidget.php:716-726 | `active` defaults to true, a missing ident is taken from the key, and a `create` action is made inactive when objects cannot be created |
| TableWidget.ResolveLabelUrl | src/Charcoal/Admin/Widget/TableWidget.php:728-740 | a translatable label becomes a translation, otherwise the ident with `.` and `_` turned to spaces and words capitalised; the URL is a translation when translatable, else `#` |
| TableWidget.MirrorButtonFlag | src/Charcoal/Admin/Widget/TableWidget.php:742-746 | `is_button` and `isButton` are mirrored as booleans, `is_button` taking precedence |
| TableWidget.BlocksParseAction | src/Charcoal/Admin/Widget/TableWidget.php:713-750 | the three blocks composed give the field-by-field description of a parsed action |
| TableWidget.ParseActionItem | src/Charcoal/Admin/Widget/TableWidget.php:713-750 | a parsed array action matches the field-by-field description: defaults, ident, creatable guard, label, URL and button flags |
| TableWidget.ParseActionItemAsWritten | src/Charcoal/Admin/Widget/TableWidget.php:713-750 | as written: the `continue` at :733 has no enclosing loop, so the file fails to compile and no action comes out parsed |
| TableWidget.ParseActionItemIntended | src/Charcoal/Admin/Widget/TableWidget.php:713-750 | as intended: an action is skipped exactly when it has neither a translatable label nor a truthy ident, and otherwise parsed as `ParseActionItem` describes |
| TableWidget.EditActionNotParsedAsWritten | src/Charcoal/Admin/Widget/TableWidget.php:733 | the default `edit` action is labelled, so the intended code parses it, yet as written it is not parsed |
| TableWidget.PrefixAdminUrlCases | src/Charcoal/Admin/Widget/TableWidget.php:770-775 | the rendered URL is either kept or prefixed with the admin URL, and it is prefixed exactly when it is non-empty, holds no `:` and does not start with `/`, `#` or `?` |
| TableWidget.PrefixAdminUrlIdempotent | src/Charcoal/Admin/Widget/TableWidget.php:770-775 | with an absolute admin URL, resolving an already resolved URL changes nothing |
| TableWidget.ListAction | src/Charcoal/Admin/Widget/TableWidget.php:633-646 | one list action: parsed, URL resolved, button type added |
| TableWidget.ListActionShape | src/Charcoal/Admin/Widget/TableWidget.php:633-646 | every list action has a string URL and a button type (`info` for `create`, `default` otherwise, unless given), keeps its ident or key, and is inactive exactly when it says so or is a non-creatable `create` |
| TableWidget.BuildListActions | src/Charcoal/Admin/Widget/TableWidget.php:632-646 | the loop yields one list action per source action, in order |
| TableWidget.ParseActions | src/Charcoal/Admin/Widget/TableWidget.php:674-682 | each action is parsed and kept under its source key, which the `parseActionItem` call on the key at :679 passes through unchanged |
| TableWidget.DefaultObjectActions | src/Charcoal/Admin/Widget/TableWidget.php:551-567 | a single `edit` action of priority 1, with a translated label and the edit URL followed by `&obj_id={{id}}` |
| TableWidget.ObjectEditUrl | src/Charcoal/Admin/Widget/TableWidget.php:869-872 | `object/edit?obj_type=` followed by the object type |
| TableWidget.CreateObjectActions | src/Charcoal/Admin/Widget/TableWidget.php:525-544 | the default actions merged with the given ones, parsed and sorted by priority |
| TableWidget.ParseObjectRow | src/Charcoal/Admin/Widget/TableWidget.php:457-466 | the primary action is the first object action, the others follow, and `hasObjectActions` holds exactly when there are at least two |
| TableWidget.WithResolvedUrl | src/Charcoal/Admin/Widget/TableWidget.php:493-495 | an action's URL, when set, is resolved for the row; no other field changes |
| TableWidget.ResolveRowUrls | src/Charcoal/Admin/Widget/TableWidget.php:490-498 | the stored actions in order, each with its URL resolved for the current row |
| TableWidget.ObjectCreateUrl | src/Charcoal/Admin/Widget/TableWidget.php:878-898 | the rendered URL of the first `create` list action that has one, otherwise the edit URL |
| TableWidget.Table.constructor | src/Charcoal/Admin/Widget/TableWidget.php:43-113 | a new table keeps the property list it was given and has built nothing yet; header and head shown, foot hidden, not sortable |
| TableWidget.Table.Properties | src/Charcoal/Admin/Widget/TableWidget.php:251-286 | the properties are resolved once from the list or metadata and afterwards returned unchanged |
| TableWidget.Table.SetListActions | src/Charcoal/Admin/Widget/TableWidget.php:600-605 | the given actions are stored |
| TableWidget.Table.SetObjectActions | src/Charcoal/Admin/Widget/TableWidget.php:509-514 | the given actions are stored |
| TableWidget.Table.ListActions | src/Charcoal/Admin/Widget/TableWidget.php:584-592 | list actions are built once (configured or set actions, parsed, with button types, sorted) and then returned unchanged |
| TableWidget.Table.ObjectActions | src/Charcoal/Admin/Widget/TableWidget.php:483-501 | object actions are built once and each call returns them with URLs resolved for the row |
| TableWidget.Table.SetFlags | src/Charcoal/Admin/Widget/TableWidget.php:292-296 | each of the sortable/header/head/foot flags stores the truth value of its argument (`setShowTableHeader`/`Head`/`Foot` at lines 815-855 likewise) |
| FormGroup.GroupPropertiesAfter | src/Charcoal/Admin/Widget/FormGroupWidget.php:58-86 | a non-null `properties` entry that is an array replaces the group properties, a non-array one is a type error, a null or missing one leaves them unchanged |
| FormGroup.GroupWidget.constructor | src/Charcoal/Admin/Widget/FormGroupWidget.php:29 | a new group has no group properties |
| FormGroup.GroupWidget.SetData | src/Charcoal/Admin/Widget/FormGroupWidget.php:58-67 | the group properties after `setData` are those `GroupPropertiesAfter` describes; an error leaves them unchanged |
| FormGroup.GroupFormProperties | src/Charcoal/Admin/Widget/FormGroupWidget.php:100-119 | the group never yields more properties than the form has |
| FormGroup.GroupFormPropertiesMembers | src/Charcoal/Admin/Widget/FormGroupWidget.php:106-117 | a property is yielded exactly when the form has it and the group lists its ident, with the object's value for it |
| FormGroup.GroupFormPropertiesConcat | src/Charcoal/Admin/Widget/FormGroupWidget.php:106-117 | the filter keeps the form's order: filtering a concatenation concatenates the filtered parts |
| FormGroup.GroupFormPropertiesL10n | src/Charcoal/Admin/Widget/FormGroupWidget.php:113-115 | a yielded property keeps its own localisation mode, and inherits the group's when it has none |
| FormGroup.FindStructureFormGroup | src/Charcoal/Admin/Widget/FormGroup/StructureFormGroup.php:445-472 | a string `form_group` naming an entry of `form_groups` selects that entry, a set non-string `form_group` is the group itself, otherwise a string `default_form_group` naming an entry selects it, and no group is found exactly when none of these applies; under the `?array` return type a selected non-array is a type error |
| FormGroup.StructProperties | src/Charcoal/Admin/Widget/FormGroup/StructureFormGroup.php:383-396 | the structure's `properties` when set, otherwise an empty array |
| FormGroup.AutoFormGroupOf | src/Charcoal/Admin/Widget/FormGroup/StructureFormGroup.php:403-417 | the structure's `admin.auto_form_group` when set, otherwise true; never null |
| FormGroup.MergedMeta | src/Charcoal/Admin/Widget/FormGroup/StructureFormGroup.php:501-505 | group metadata that is an array is merged under the structure's metadata (a type error when the structure's is not an array); otherwise the structure's metadata alone |
| FormGroup.MergedMetaStructureWins | src/Charcoal/Admin/Widget/FormGroup/StructureFormGroup.php:501-505 | on a key clash the structure's metadata wins, keys it lacks keep the group's value |
| FormGroup.AvailableIdents | src/Charcoal/Admin/Widget/FormGroup/StructureFormGroup.php:489-499 | only camelised idents that the structure provides are kept |
| FormGroup.ParseGroupKeys | src/Charcoal/Admin/Widget/FormGroup/StructureFormGroup.php:487-509 | the parsed properties are keyed by the provided idents, each once, in order of first mention in the group |
| FormGroup.ParseGroupValue | src/Charcoal/Admin/Widget/FormGroup/StructureFormGroup.php:501-507 | each parsed property carries the merged metadata of the last group entry naming it |
| FormGroup.ParseGroupFails | src/Charcoal/Admin/Widget/FormGroup/StructureFormGroup.php:501-502 | the parse fails exactly when a provided property has array group metadata and non-array structure metadata |
| FormGroup.ParseGroupStops | src/Charcoal/Admin/Widget/FormGroup/StructureFormGroup.php:489-508 | a failure in a prefix of the group fails the whole parse with the same error |
| FormGroup.ParsedPropertiesFallback | src/Charcoal/Admin/Widget/FormGroup/StructureFormGroup.php:511-513 | all structure properties are used only when the parse is empty and `autoFormGroup` is literally `true` |
| FormGroup.ParseFormProperties | src/Charcoal/Admin/Widget/FormGroup/StructureFormGroup.php:487-509 | the loop computes exactly the parse of the group entries |
| FormGroup.InputName | src/Charcoal/Admin/Widget/FormGroup/StructureFormGroup.php:553 | a nested input is named `<store>[<ident>]` |
| FormGroup.StoreName | src/Charcoal/Admin/Widget/FormGroup/StructureFormGroup.php:605 | the store's truthy `input_name`, otherwise its ident |
| FormGroup.StructInput | src/Charcoal/Admin/Widget/FormGroup/StructureFormGroup.php:568-608 | a property filtered to `false` or marked inactive is skipped, a non-array one is an unexpected-value error, any other becomes an input named `<store>[<ident>]` |
| FormGroup.StructInputs | src/Charcoal/Admin/Widget/FormGroup/StructureFormGroup.php:568-645 | never more inputs than parsed properties |
| FormGroup.StructInputsFail | src/Charcoal/Admin/Widget/FormGroup/StructureFormGroup.php:587-597 | the inputs fail exactly when some property is filtered to neither `false` nor an array |
| FormGroup.StructInputsConcat | src/Charcoal/Admin/Widget/FormGroup/StructureFormGroup.php:568-645 | inputs follow the parsed order: on a concatenation they are the concatenated inputs of the parts |
| FormGroup.StructInputsNamed | src/Charcoal/Admin/Widget/FormGroup/StructureFormGroup.php:599-608 | every input is named `<store>[<ident>]` after a parsed property and is active |
| FormGroup.SupportsLanguageSwitchIff | src/Charcoal/Admin/Widget/FormGroup/StructureFormGroup.php:648-675 | the group supports the language switch exactly when one of its (merged) properties has a truthy `l10n` |
| FormGroup.GroupDataRawWins | src/Charcoal/Admin/Widget/FormGroup/StructureFormGroup.php:432-434 | explicit widget data wins over the resolved group; keys it lacks come from the group |
| FormGroup.ApplyData | src/Charcoal/Admin/Widget/FormGroup/StructureFormGroup.php:173-182 | the first data set is recorded as the raw data and kept afterwards |
| FormGroup.Finalize | src/Charcoal/Admin/Widget/FormGroup/StructureFormGroup.php:425-440 | a failed lookup reports its error; no group or an empty (falsy) one changes nothing; a non-empty group records the raw data (the group itself when there is none) and applies the `properties` of the group with the raw data over it: an array replaces, null keeps, anything else is a type error |
| FormGroup.EmptyGroupSkipped | src/Charcoal/Admin/Widget/FormGroup/StructureFormGroup.php:431 | a structure whose `form_group` is an empty array leaves the raw data and the group properties as they were |
| FormGroup.FinalizeRawDataWins | src/Charcoal/Admin/Widget/FormGroup/StructureFormGroup.php:425-440 | when the structure resolves to a non-empty group and the raw data names array `properties`, finalising records the raw data and leaves exactly those as group properties |
| FormGroup.DefaultLayout | src/Charcoal/Admin/Widget/FormGroup/StructureFormGroup.php:561-565 | the installed layout is a truthy array |
| FormGroup.StructureGroup.constructor | src/Charcoal/Admin/Widget/FormGroup/StructureFormGroup.php:87-137 | a new group has nothing resolved: no raw data, not finalised, nothing parsed, no layout, no struct id |
| FormGroup.StructureGroup.StructId | src/Charcoal/Admin/Widget/FormGroup/StructureFormGroup.php:160-167 | a falsy id is replaced by a fresh unique one; a truthy one is kept |
| FormGroup.StructureGroup.ShowFrame | src/Charcoal/Admin/Widget/FormGroup/StructureFormGroup.php:189-210 | the seamless display hides header and footer; any other display defers to the generic group |
| FormGroup.StructureGroup.SetData | src/Charcoal/Admin/Widget/FormGroup/StructureFormGroup.php:173-182 | the new raw data and group properties are those `ApplyData` gives |
| FormGroup.StructureGroup.AutoFormGroup | src/Charcoal/Admin/Widget/FormGroup/StructureFormGroup.php:403-417 | resolved from the structure on first use, then kept |
| FormGroup.StructureGroup.FinalizeStructure | src/Charcoal/Admin/Widget/FormGroup/StructureFormGroup.php:425-440 | runs once, or again on reload, and then leaves exactly the raw data, group properties and error `Finalize` gives, so an empty group is skipped |
| FormGroup.StructureGroup.ParsedFormProperties | src/Charcoal/Admin/Widget/FormGroup/StructureFormGroup.php:479-519 | computed once after finalising, then returned as memoised |
| FormGroup.StructureGroup.FormProperties | src/Charcoal/Admin/Widget/FormGroup/StructureFormGroup.php:529-646 | finalises the structure when due (the new raw data and group properties are those of `Finalize`, whose error is the result), resolves the auto-form-group flag at most once, on the first call parses the properties as `ParsedProperties` does (a parse error is the result, a success is memoised), installs a one-column layout when none is set, then yields the inputs `StructInputs` gives for the parsed properties |
| TemplateOptions.TemplateIdent | src/Charcoal/Admin/Widget/FormGroup/TemplateOptionsFormGroup.php:106-110 | an ident that names no class ends with `-template`, the suffix being appended only when missing |
| TemplateOptions.TemplateIdentStable | src/Charcoal/Admin/Widget/FormGroup/TemplateOptionsFormGroup.php:106-108 | suffixing is idempotent, adds the suffix at most once and keeps the ident as a prefix |
| TemplateOptions.StructureKey | src/Charcoal/Admin/Widget/FormGroup/TemplateOptionsFormGroup.php:317-319 | the structure key is `template/structure=` followed by the serialised object type, object id and controller idents |
| TemplateOptions.CheckProperty | src/Charcoal/Admin/Widget/FormGroup/TemplateOptionsFormGroup.php:143-160 | a string or property instance naming a property of the object is accepted; a non-string is an invalid argument, an unknown ident an unexpected value |
| TemplateOptions.TemplateOptionsGroup.constructor | src/Charcoal/Admin/Widget/FormGroup/TemplateOptionsFormGroup.php:76-90 | a new group has no controller ident, template property or storage property |
| TemplateOptions.TemplateOptionsGroup.SetControllerIdent | src/Charcoal/Admin/Widget/FormGroup/TemplateOptionsFormGroup.php:98-113 | a class name is stored as given; any other ident is stored ending with `-template` |
| TemplateOptions.TemplateOptionsGroup.SetTemplateProperty | src/Charcoal/Admin/Widget/FormGroup/TemplateOptionsFormGroup.php:135-169 | null clears the template property; otherwise the argument is checked and stored, and a rejected one changes nothing |
| TemplateOptions.TemplateOptionsGroup.TemplateProperty | src/Charcoal/Admin/Widget/FormGroup/TemplateOptionsFormGroup.php:177-192 | a set property is returned; otherwise a templateable object supplies `template_ident`, any other object is a runtime error |
| TemplateOptions.TemplateOptionsGroup.SetStorageProperty | src/Charcoal/Admin/Widget/FormGroup/StructureFormGroup.php:317-358 | the storage property must name a property of the object and be a structure property; a rejected one changes nothing |
| TemplateOptions.TemplateOptionsGroup.StorageProperty | src/Charcoal/Admin/Widget/FormGroup/TemplateOptionsFormGroup.php:200-215 | the answer is `ResolvedStorage` of the old state: a set property is returned; otherwise a templateable object supplies `template_options`, any other object is a runtime error |
| TemplateOptions.TemplateOptionsGroup.ControllerStructure | src/Charcoal/Admin/Widget/FormGroup/TemplateOptionsFormGroup.php:303-326 | without a controller ident, the object's template options metadata (an empty structure for other objects); with one, that metadata loaded under the controller's structure key |
| TemplateOptions.TemplateOptionsGroup.FinalizeStructureAsWritten | src/Charcoal/Admin/Widget/FormGroup/TemplateOptionsFormGroup.php:300-333 | as written: the structure is installed but the parent step runs without the reload flag, so a reload of a finalised group keeps the old group properties |
| TemplateOptions.TemplateOptionsGroup.ResolvedStorage | src/Charcoal/Admin/Widget/FormGroup/TemplateOptionsFormGroup.php:200-215 | the storage property `storageProperty()` answers: the set one; else `template_options` for a templateable object that has it as a structure property, an unexpected value when it does not, and a runtime error for any other object |
| TemplateOptions.TemplateOptionsGroup.FinalizeStructure | src/Charcoal/Admin/Widget/FormGroup/TemplateOptionsFormGroup.php:300-333 | with the reload passed on: when finalising is due and the storage property resolves (set, or `template_options` resolved on first use and then stored), the controller structure is installed and the group is resolved again from it; when it does not resolve, its error is the result and the group is untouched |
| TemplateOptions.ReloadResolvesNewGroup | src/Charcoal/Admin/Widget/FormGroup/TemplateOptionsFormGroup.php:331 | a reload installing a structure that resolves to a group changes the group properties of a group finalised with none, which the as-written reload does not do |
| ObjectForm.DataFromRequest | src/Charcoal/Admin/Widget/ObjectFormWidget.php:86-99 | the query restricted to the accepted keys, in query order; no other key survives |
| ObjectForm.RestrictIdempotent | src/Charcoal/Admin/Widget/ObjectFormWidget.php:88 | restricting twice is restricting once |
| ObjectForm.DataFromRequestIdempotent | src/Charcoal/Admin/Widget/ObjectFormWidget.php:86-89 | filtering the request data again changes nothing |
| ObjectForm.FormIdentOf | src/Charcoal/Admin/Widget/ObjectFormWidget.php:110-113 | the widget's truthy form ident, else the admin `default_form` as a string when set, else the empty ident |
| ObjectForm.MergeGroup | src/Charcoal/Admin/Widget/ObjectFormWidget.php:123-126 | `array_merge` of the global group and the form's entry succeeds exactly when both are arrays |
| ObjectForm.MergeGroups | src/Charcoal/Admin/Widget/ObjectFormWidget.php:117-128 | merging keeps the form's group keys |
| ObjectForm.MergeGroupsGet | src/Charcoal/Admin/Widget/ObjectFormWidget.php:117-128 | only groups that are also global change, each into the global group overridden by the form's own entries |
| ObjectForm.MergeGroupsFails | src/Charcoal/Admin/Widget/ObjectFormWidget.php:117-128 | merging fails exactly when a shared group is not an array on one side |
| ObjectForm.MergeGlobalGroups | src/Charcoal/Admin/Widget/ObjectFormWidget.php:122-127 | the loop computes `MergeGroups` |
| ObjectForm.ObjectFormDataCases | src/Charcoal/Admin/Widget/ObjectFormWidget.php:106-131 | an unknown form gives an empty array, and a form without groups, or an object without global groups, is returned untouched |
| ObjectForm.DataFromObject | src/Charcoal/Admin/Widget/ObjectFormWidget.php:106-131 | the method computes the object form data described by `ObjectFormData` |
| ObjectForm.FormProperties | src/Charcoal/Admin/Widget/ObjectFormWidget.php:239-267 | one form property per ordered entry, or an exception exactly when some entry's metadata is not an array |
| ObjectForm.FormPropertiesOrder | src/Charcoal/Admin/Widget/ObjectFormWidget.php:245-247 | with a group, the group's idents come first in group order, followed by the other properties, each with its metadata |
| ObjectForm.FormPropertiesMissingIdent | src/Charcoal/Admin/Widget/ObjectFormWidget.php:246-258 | a group ident the metadata lacks keeps its integer position as metadata, so the whole form fails |
| ObjectForm.Action | src/Charcoal/Admin/Widget/ObjectFormWidget.php:184-198 | an explicit action wins; otherwise `action/object/update` for an object with an id and `action/object/save` without |
| ObjectForm.OverlaidFormDataGet | src/Charcoal/Admin/Widget/ObjectFormWidget.php:314-323 | a key the data sets takes the recursively replaced value, any other keeps the object's, and null values are removed |
| ObjectForm.ObjectFormWidget.constructor | src/Charcoal/Admin/Widget/ObjectFormWidget.php:26-36 | a new widget has an empty form ident, no display mode and no form data |
| ObjectForm.ObjectFormWidget.SetFormIdent | src/Charcoal/Admin/Widget/ObjectFormWidget.php:138-147 | a string is stored; anything else is an invalid argument and changes nothing |
| ObjectForm.ObjectFormWidget.SetGroupDisplayMode | src/Charcoal/Admin/Widget/ObjectFormWidget.php:207-211 | the mode is stored |
| ObjectForm.ObjectFormWidget.IsTab | src/Charcoal/Admin/Widget/ObjectFormWidget.php:227-230 | true exactly for the display mode `tab` |
| ObjectForm.ObjectFormWidget.SetFormData | src/Charcoal/Admin/Widget/ObjectFormWidget.php:312-328 | the form data is the object data overlaid with the given data, holding no null value |
| ObjectForm.ObjectFormWidget.FormData | src/Charcoal/Admin/Widget/ObjectFormWidget.php:336-342 | empty form data falls back on the object data; non-empty form data is kept |
| AdminBase.NullableString | src/Charcoal/Admin/AdminWidget.php:159-175 | the rule shared by `setTemplate`, `setType` and `setIdent`: null clears, a string is stored, anything else is an invalid argument |
| AdminBase.SourceIdent | src/Charcoal/Admin/AdminWidget.php:522-529 | a list position holding a string names that string; a string key names itself; anything else names no source |
| AdminBase.AddSource | src/Charcoal/Admin/AdminWidget.php:518-548 | an entry naming no accepted source is an invalid argument; otherwise its ident is appended and its resolved filter recorded |
| AdminBase.AddSourceValid | src/Charcoal/Admin/AdminWidget.php:540-545 | adding a source keeps every listed source accepted and recorded with a filter |
| AdminBase.AddSourcesSucceeds | src/Charcoal/Admin/AdminWidget.php:294-296 | the loop over the entries succeeds exactly when every entry names an accepted source |
| AdminBase.Idents | src/Charcoal/Admin/AdminWidget.php:294-296 | one ident per entry, in entry order |
| AdminBase.AddSourcesList | src/Charcoal/Admin/AdminWidget.php:294-296 | a successful loop lists the old sources followed by the entries' idents in order |
| AdminBase.AddSourcesValid | src/Charcoal/Admin/AdminWidget.php:282-299 | the loop keeps the sources valid, even when it stops at a rejected entry |
| AdminBase.EscapedJson | src/Charcoal/Admin/AdminWidget.php:368-371 | the JSON is wrapped between the Mustache delimiter switches `{{=<% %>=}}` and `<%={{ }}=%>`, unchanged in between |
| AdminBase.EscapedJsonInjective | src/Charcoal/Admin/AdminWidget.php:368-371 | the JSON can be read back from its escaped form |
| AdminBase.AdminWidget.constructor | src/Charcoal/Admin/AdminWidget.php:51-114 | a new widget has no template or type, an empty ident, no widget id, no data sources and no filters |
| AdminBase.AdminWidget.SetTemplate | src/Charcoal/Admin/AdminWidget.php:159-175 | the template follows `NullableString`; a rejected value changes nothing |
| AdminBase.AdminWidget.Template | src/Charcoal/Admin/AdminWidget.php:180-187 | the widget type stands in for a missing template |
| AdminBase.AdminWidget.SetType | src/Charcoal/Admin/AdminWidget.php:217-233 | the type follows `NullableString`; a rejected value changes nothing |
| AdminBase.AdminWidget.SetIdent | src/Charcoal/Admin/AdminWidget.php:248-264 | the ident follows `NullableString`; a rejected value changes nothing |
| AdminBase.AdminWidget.SetWidgetId | src/Charcoal/Admin/AdminWidget.php:193-198 | the id is stored |
| AdminBase.AdminWidget.WidgetId | src/Charcoal/Admin/AdminWidget.php:203-210 | a falsy id is replaced once by `widget_` and a unique suffix; the id returned is truthy and stable afterwards |
| AdminBase.AdminWidget.SetDataSources | src/Charcoal/Admin/AdminWidget.php:282-299 | null resets to the defaults; otherwise every entry is added in turn and a rejected one stops the loop, keeping those before it |
| AdminBase.AdminWidget.DataSources | src/Charcoal/Admin/AdminWidget.php:306-313 | the (empty) defaults while unset, else the listed sources |
| AdminBase.AdminWidget.DataSourceFilter | src/Charcoal/Admin/AdminWidget.php:322-335 | a non-string ident is an invalid argument; otherwise the recorded filter, or null |
| AdminBase.AdminWidget.SetLabel | src/Charcoal/Admin/AdminWidget.php:377-382 | the rendered label is stored |
| AdminBase.AdminWidget.SetShowActions | src/Charcoal/Admin/AdminWidget.php:404-408 | the truth value of the argument is stored |
| AdminBase.AdminWidget.ShowActions | src/Charcoal/Admin/AdminWidget.php:413-420 | false when disabled, otherwise whether the widget has actions |
| AdminBase.AdminWidget.SetShowLabel | src/Charcoal/Admin/AdminWidget.php:426-430 | the truth value of the argument is stored |
| AdminBase.AdminWidget.ShowLabel | src/Charcoal/Admin/AdminWidget.php:435-442 | false when disabled, otherwise whether the label string is truthy (neither empty nor `0`) |
| Graph.GraphWidget.constructor | src/Charcoal/Admin/Widget/Graph/AbstractGraphWidget.php:18-23 | a new graph is 400 high with no palette |
| Graph.GraphWidget.SetHeight | src/Charcoal/Admin/Widget/Graph/AbstractGraphWidget.php:29-33 | the height is stored |
| Graph.GraphWidget.SetColors | src/Charcoal/Admin/Widget/Graph/AbstractGraphWidget.php:47-51 | the palette is stored |
| Graph.GraphWidget.Colors | src/Charcoal/Admin/Widget/Graph/AbstractGraphWidget.php:56-62 | an empty palette is replaced by the defaults, so the palette returned is never empty; a set palette is kept |
| Graph.PresetFor | src/Charcoal/Admin/Widget/Graph/AbstractTimeGraphWidget.php:65-81 | exactly `hour`, `day` and `month` have a preset, each ending `now` |
| Graph.DateOf | src/Charcoal/Admin/Widget/Graph/AbstractTimeGraphWidget.php:144-163 | a date argument is a time point; a string that does not parse or a non-date is an invalid argument |
| Graph.Zeros | src/Charcoal/Admin/Widget/Graph/AbstractTimeGraphWidget.php:326-330 | the zero row holds `'0'` for exactly the series ids |
| Graph.GridPointNext | src/Charcoal/Admin/Widget/Graph/AbstractTimeGraphWidget.php:334-340 | advancing the start by one step shifts the grid by one point, and grid points never precede the start |
| Graph.BucketsGrid | src/Charcoal/Admin/Widget/Graph/AbstractTimeGraphWidget.php:334-340 | a bucket key is the formatted time of a grid point strictly before the end, and every such point has one |
| Graph.FillStep | src/Charcoal/Admin/Widget/Graph/AbstractTimeGraphWidget.php:335-339 | one step of the walk inserts the zero row for the current bucket only when it has no row |
| Graph.FillWindow | src/Charcoal/Admin/Widget/Graph/AbstractTimeGraphWidget.php:332-340 | the loop fills exactly the window's buckets |
| Graph.FillGet | src/Charcoal/Admin/Widget/Graph/AbstractTimeGraphWidget.php:336-338 | the zero row is added exactly for buckets without a row; no other key changes and keys stay distinct |
| Graph.FilledRowsGet | src/Charcoal/Admin/Widget/Graph/AbstractTimeGraphWidget.php:324-343 | the filled rows ascend by key, every bucket has a row, existing rows are unchanged, a missing bucket gets `'0'` per series, and nothing else is added |
| Graph.Column | src/Charcoal/Admin/Widget/Graph/AbstractTimeGraphWidget.php:369 | `array_column` takes one value per row carrying the series, in row order |
| Graph.SeriesOf | src/Charcoal/Admin/Widget/Graph/AbstractTimeGraphWidget.php:363-371 | one series per series option, in order, with its name, type and data column |
| Graph.SeriesAligned | src/Charcoal/Admin/Widget/Graph/AbstractTimeGraphWidget.php:358-374 | when every database row carries every series, each series has one value per category |
| Graph.FillCarries | src/Charcoal/Admin/Widget/Graph/AbstractTimeGraphWidget.php:336-338 | filling with a zero row that carries a series keeps every row carrying it |
| Graph.CategoriesSorted | src/Charcoal/Admin/Widget/Graph/AbstractTimeGraphWidget.php:341 | categories ascend by key |
| Graph.TimeGraphWidget.constructor | src/Charcoal/Admin/Widget/Graph/AbstractTimeGraphWidget.php:26-58 | a new widget has no grouping, formats, dates or interval |
| Graph.TimeGraphWidget.SetDateFormat | src/Charcoal/Admin/Widget/Graph/AbstractTimeGraphWidget.php:96-105 | only a string is stored; anything else is an invalid argument and changes nothing |
| Graph.TimeGraphWidget.SetSqlDateFormat | src/Charcoal/Admin/Widget/Graph/AbstractTimeGraphWidget.php:120-129 | only a string is stored; anything else is an invalid argument and changes nothing |
| Graph.TimeGraphWidget.SetStartDate | src/Charcoal/Admin/Widget/Graph/AbstractTimeGraphWidget.php:144-163 | the parsed date is stored; an invalid one is rejected and changes nothing |
| Graph.TimeGraphWidget.SetEndDate | src/Charcoal/Admin/Widget/Graph/AbstractTimeGraphWidget.php:178-197 | the parsed date is stored; an invalid one is rejected and changes nothing |
| Graph.TimeGraphWidget.SetDateInterval | src/Charcoal/Admin/Widget/Graph/AbstractTimeGraphWidget.php:212-224 | a string is parsed, an interval kept, anything else rejected without change |
| Graph.TimeGraphWidget.SetGroupingType | src/Charcoal/Admin/Widget/Graph/AbstractTimeGraphWidget.php:65-81 | an unknown type is rejected before anything changes; a known one records the type and applies its preset's formats, window and interval |
| Graph.TimeGraphWidget.ZeroRow | src/Charcoal/Admin/Widget/Graph/AbstractTimeGraphWidget.php:326-330 | the loop builds the zero row over the series options |
| Graph.TimeGraphWidget.FillRows | src/Charcoal/Admin/Widget/Graph/AbstractTimeGraphWidget.php:324-343 | the method computes `FilledRows` from its fields |
| Graph.TimeGraphWidget.Categories | src/Charcoal/Admin/Widget/Graph/AbstractTimeGraphWidget.php:348-353 | the keys of the filled rows, in order |
| Graph.TimeGraphWidget.Series | src/Charcoal/Admin/Widget/Graph/AbstractTimeGraphWidget.php:358-374 | one series per series option over the filled rows |
| KeySort.SortByKey | src/Charcoal/Admin/Widget/Graph/AbstractTimeGraphWidget.php:341 | `ksort($rows)`: the result ascends by key, holds exactly the entries of the input and the same set of keys |
| KeySort.InsertByKeySorted | src/Charcoal/Admin/Widget/Graph/AbstractTimeGraphWidget.php:341 | inserting one entry into an array sorted by key keeps it sorted and keeps every common lower bound of the array and the entry |
| KeySort.SortByKeyUnique | src/Charcoal/Admin/Widget/Graph/AbstractTimeGraphWidget.php:341 | sorting an array with distinct keys leaves the keys distinct |
| KeySort.SortByKeyGet | src/Charcoal/Admin/Widget/Graph/AbstractTimeGraphWidget.php:341 | sorting changes no key's value: every key looks up the same value before and after |
| Translate.TranslateCSV | src/Charcoal/Admin/Script/Translation/TranslateScript.php:321-336 | a row of at least three fields is an original with its translation and context; a shorter row is nothing |
| Translate.Row | src/Charcoal/Admin/Script/Translation/TranslateScript.php:304 | the row written for an entry has three fields |
| Translate.TranslateRow | src/Charcoal/Admin/Script/Translation/TranslateScript.php:304 | reading back a written row gives the original and its entry |
| Translate.ReadCatalogue | src/Charcoal/Admin/Script/Translation/TranslateScript.php:256-273 | the loop with its row counter computes `FromCSV`: the header skipped, every valid row read |
| Translate.FromCSVSkipsHeader | src/Charcoal/Admin/Script/Translation/TranslateScript.php:261-263 | the first row of the file is never read as an entry, whatever it holds |
| Translate.FromRowsGet | src/Charcoal/Admin/Script/Translation/TranslateScript.php:269-272 | an original takes the entry of the last row naming it; others keep their earlier value |
| Translate.LastNaming | src/Charcoal/Admin/Script/Translation/TranslateScript.php:271 | the position of the last row naming an original |
| Translate.Rows | src/Charcoal/Admin/Script/Translation/TranslateScript.php:303-306 | one body row per entry, in catalogue order |
| Translate.FromRowsRows | src/Charcoal/Admin/Script/Translation/TranslateScript.php:303-306 | reading the written rows restores the entries in order after what was read before |
| Translate.CatalogueRoundTrip | src/Charcoal/Admin/Script/Translation/TranslateScript.php:282-311 | a catalogue with distinct originals written to CSV reads back unchanged |
| Translate.AddFoundGet | src/Charcoal/Admin/Script/Translation/TranslateScript.php:134-142 | merging the matches of one file never overwrites an entry; a new original gets an empty translation and that file as context |
| Translate.FirstFile | src/Charcoal/Admin/Script/Translation/TranslateScript.php:126-144 | the index of the first file that yields an original |
| Translate.ExtractGet | src/Charcoal/Admin/Script/Translation/TranslateScript.php:126-144 | entries read from the CSV are kept; a string found for the first time gets an empty translation and the first file containing it as context; nothing else is added |
| Translate.ExtractAll | src/Charcoal/Admin/Script/Translation/TranslateScript.php:126-144 | the nested loop over files and matches computes `Extract` |
| Translate.PatternFor | src/Charcoal/Admin/Script/Translation/TranslateScript.php:86-102 | the file type `php` selects the PHP pattern and its named group; every other type the Mustache pattern and its first group |
| Translate.OppositeLanguages | src/Charcoal/Admin/Script/Translation/TranslateScript.php:352-367 | exactly the configured languages other than the original one, in configuration order |
| Translate.Columns | src/Charcoal/Admin/Script/Translation/TranslateScript.php:402-417 | the original language, then the opposite languages, then `context` |
| Translate.LocalesOf | src/Charcoal/Admin/Script/Translation/TranslateScript.php:375-394 | the configured languages, file and default language, defaulting to none, the `output` argument and `fr` |
| Translate.TranslateScript.constructor | src/Charcoal/Admin/Script/Translation/TranslateScript.php:24-34 | a new script has no locales and no output file |
| Translate.TranslateScript.Locales | src/Charcoal/Admin/Script/Translation/TranslateScript.php:375-394 | computed once from the configuration, then kept while truthy |
| Translate.TranslateScript.File | src/Charcoal/Admin/Script/Translation/TranslateScript.php:230-238 | a truthy stored file is returned unchanged; otherwise the locales are computed when unset and the file is their `file` entry, the configured one or else the `output` argument |
| ImageAttributes.Dimension | src/Charcoal/Admin/Ui/ImageAttributesTrait.php:169-178 | a numeric dimension is stored with `px` appended, anything else as given |
| ImageAttributes.DimensionIdempotent | src/Charcoal/Admin/Ui/ImageAttributesTrait.php:169-178 | storing a stored dimension again changes nothing |
| ImageAttributes.Piece | src/Charcoal/Admin/Ui/ImageAttributesTrait.php:109-132 | a boolean entry gives its key or nothing, null gives nothing, any other value a `key: value;` declaration whose value holds no HTML-special character and decodes back to the value's text (a list space-joined) |
| ImageAttributes.Declaration | src/Charcoal/Admin/Ui/ImageAttributesTrait.php:120-127 | `key: value;` whose value part holds no HTML-special character and decodes back to the text, equal to the raw text when that has none |
| Str.HtmlEscapeRoundTrip | src/Charcoal/Admin/Ui/ImageAttributesTrait.php:120 | `htmlspecialchars` with `ENT_QUOTES` loses nothing: `htmlspecialchars_decode` gives the text back |
| ImageAttributes.ParseStyleCons | src/Charcoal/Admin/Ui/ImageAttributesTrait.php:109-132 | the serialisation is empty for no entries, and otherwise the first entry's piece followed, after one space, by the rest |
| ImageAttributes.IsNumeric | src/Charcoal/Admin/Ui/ImageAttributesTrait.php:169-178 | integers are numeric, a numeric string holds a digit, and no other value is numeric |
| ImageAttributes.IsDataUri | src/Charcoal/Admin/Ui/ImageAttributesTrait.php:283-286 | true exactly when the value opens with the five characters `data:` |
| ImageAttributes.DataUriPrefix | src/Charcoal/Admin/Ui/ImageAttributesTrait.php:283-286 | whatever follows the scheme the value stays a data URI, and a value opening with anything else is none, even with `data:` later in it |
| ImageAttributes.Pieces | src/Charcoal/Admin/Ui/ImageAttributesTrait.php:109-132 | one piece per entry, in input order |
| ImageAttributes.ParseStyleAppend | src/Charcoal/Admin/Ui/ImageAttributesTrait.php:109-132 | serialising two declaration lists in a row gives their serialisations separated by one space |
| ImageAttributes.DefaultStyleTruthy | src/Charcoal/Admin/Ui/ImageAttributesTrait.php:93-101 | the serialised defaults are never empty, so `setStyleAttr` always appends them |
| ImageAttributes.ClassList | src/Charcoal/Admin/Ui/ImageAttributesTrait.php:140-149 | a list of classes is space-joined; anything else is kept |
| ImageAttributes.Image.constructor | src/Charcoal/Admin/Ui/ImageAttributesTrait.php:15-50 | a new image has no class or style, `auto` width and height, `100%` max width and `none` max height |
| ImageAttributes.Image.SetWidth | src/Charcoal/Admin/Ui/ImageAttributesTrait.php:169-178 | the width is stored as `Dimension` gives it |
| ImageAttributes.Image.SetHeight | src/Charcoal/Admin/Ui/ImageAttributesTrait.php:198-207 | the height is stored as `Dimension` gives it |
| ImageAttributes.Image.SetMaxWidth | src/Charcoal/Admin/Ui/ImageAttributesTrait.php:227-236 | the max width is stored as `Dimension` gives it |
| ImageAttributes.Image.SetMaxHeight | src/Charcoal/Admin/Ui/ImageAttributesTrait.php:256-265 | the max height is stored as `Dimension` gives it |
| ImageAttributes.Image.SetStyleAttr | src/Charcoal/Admin/Ui/ImageAttributesTrait.php:58-72 | the given declarations (serialised when an array), one space, then the declarations of the current dimensions |
| ImageAttributes.Image.StyleAttr | src/Charcoal/Admin/Ui/ImageAttributesTrait.php:79-86 | unset declarations become those of the current dimensions and stay |
| ImageAttributes.Image.SetClassAttr | src/Charcoal/Admin/Ui/ImageAttributesTrait.php:140-149 | the class attribute is `ClassList` of the argument |
| ObjectUpdate.Strip | src/Charcoal/Admin/Action/Object/UpdateAction.php:79-93 | the entries whose key is not among the given keys, in order |
| ObjectUpdate.RemoveAllStrip | src/Charcoal/Admin/Action/Object/UpdateAction.php:79-93 | removing keys one by one keeps exactly the other entries, in order |
| ObjectUpdate.StripIdempotent | src/Charcoal/Admin/Action/Object/UpdateAction.php:79-93 | stripping a second time changes nothing |
| ObjectUpdate.RemoveAllSpec | src/Charcoal/Admin/Action/Object/UpdateAction.php:79-93 | the `unset` sequence is stripping, and repeating it changes nothing |
| ObjectUpdate.FilterUpdateDataSpec | src/Charcoal/Admin/Action/Object/UpdateAction.php:79-93 | the filtered data lacks the eight addressing keys, keeps every other entry in order, and filtering again changes nothing |
| ObjectUpdate.ValidDataFromRequest | src/Charcoal/Admin/Action/Object/UpdateAction.php:66-71 | `obj_type` and `obj_id`, then the parameters the base action accepts |
| ObjectUpdate.StatusSuccess | src/Charcoal/Admin/Action/Object/UpdateAction.php:137-195 | the request succeeds exactly when both parameters are given, the data validates and the update succeeds |
| ObjectUpdate.Status | src/Charcoal/Admin/Action/Object/UpdateAction.php:137-195 | the response is untouched, 400 or 500, and 500 exactly when both parameters are given and validation throws, or the data validate and the update throws or fails |
| ObjectUpdate.StatusClientError | src/Charcoal/Admin/Action/Object/UpdateAction.php:140-179 | status 400 exactly for a missing parameter or data that do not validate, and then the update is never attempted |
| ObjectUpdate.Notices | src/Charcoal/Admin/Action/Object/UpdateAction.php:192 | exactly the validator messages of level notice or warning, in order |
| ObjectUpdate.UpdateAction.constructor | src/Charcoal/Admin/Action/Object/UpdateAction.php:39 | a new action has no update data, no success and no feedback |
| ObjectUpdate.UpdateAction.SetDataFromRequest | src/Charcoal/Admin/Action/Object/UpdateAction.php:50-59 | the request parameters minus the eight addressing keys become the update data |
| ObjectUpdate.UpdateAction.SetUpdateData | src/Charcoal/Admin/Action/Object/UpdateAction.php:101-106 | the data is stored |
| ObjectUpdate.UpdateAction.GetUpdateData | src/Charcoal/Admin/Action/Object/UpdateAction.php:113-116 | the stored data is returned |
| ObjectUpdate.UpdateAction.Run | src/Charcoal/Admin/Action/Object/UpdateAction.php:123-211 | the status follows the decision sequence (400 for a missing type or id or invalid data, 500 for a failed update, unchanged on success), success holds exactly on success, and the feedbacks are those of the branch taken |
| SelectizeLoad.SearchProperties | src/Charcoal/Admin/Action/Selectize/LoadAction.php:74-83 | the non-empty `searchProperties` option; else the choice label when non-empty and not a template; else none |
| SelectizeLoad.Conditions | src/Charcoal/Admin/Action/Selectize/LoadAction.php:90-96 | one `LIKE %query%` condition per searched property, in order |
| SelectizeLoad.ConditionsAppend | src/Charcoal/Admin/Action/Selectize/LoadAction.php:90-96 | each loop step appends one condition |
| SelectizeLoad.Search | src/Charcoal/Admin/Action/Selectize/LoadAction.php:86-96 | the search group is one `OR` over the conditions |
| SelectizeLoad.NextIndex | src/Charcoal/Admin/Action/Selectize/LoadAction.php:100 | the index `array_push` uses is at least 0 and above every integer key |
| SelectizeLoad.WithSearch | src/Charcoal/Admin/Action/Selectize/LoadAction.php:98-103 | an array of filters gets the search pushed after its entries; anything else is replaced by a list of the search alone |
| SelectizeLoad.WithSearchList | src/Charcoal/Admin/Action/Selectize/LoadAction.php:98-103 | the search becomes the last filter, existing filters keep their keys, and keys stay distinct |
| SelectizeLoad.BuildConditions | src/Charcoal/Admin/Action/Selectize/LoadAction.php:90-96 | the loop over the searched properties builds exactly `Conditions` |
| SelectizeLoad.BuildFilters | src/Charcoal/Admin/Action/Selectize/LoadAction.php:69-106 | the filters handed back to the property are exactly `LoadFilters` |
| SelectizeLoad.LoadFiltersAppend | src/Charcoal/Admin/Action/Selectize/LoadAction.php:69-106 | a query only changes the filters by appending one search group, and an empty (or `0`) query never changes them |
| SelectizeLoad.DoneMessage | src/Charcoal/Admin/Action/Selectize/LoadAction.php:113-128 | no objects for 0, one object for 1, the count otherwise |
| SelectizeLoad.LoadAction.constructor | src/Charcoal/Admin/Action/Selectize/LoadAction.php:27-32 | a new action has an empty query, no collection, no success and no feedback |
| SelectizeLoad.LoadAction.SetQuery | src/Charcoal/Admin/Action/Selectize/LoadAction.php:155-160 | the query is stored |
| SelectizeLoad.LoadAction.Run | src/Charcoal/Admin/Action/Selectize/LoadAction.php:53-141 | the filters become `LoadFilters`; loaded choices give status 200, success and the count message; a thrown exception gives 500 and an error feedback |
| SelectizeLoad.LoadAction.Results | src/Charcoal/Admin/Action/Selectize/LoadAction.php:184-191 | exactly `success`, `feedbacks` and `selectize`, holding the action's state |
| AclPermissions.PermissionList | src/Charcoal/Admin/Widget/FormGroup/AclPermissions.php:198-199 | a stored permission column becomes a non-empty list that joined with `,` gives back the trimmed column |
| AclPermissions.Classify | src/Charcoal/Admin/Widget/FormGroup/AclPermissions.php:230-253 | a permission is allowed exactly when the role allows it, denied exactly when it is denied and not allowed, unknown otherwise; its parent status follows the admin ACL, empty when the ACL lacks the resource |
| AclPermissions.ClassifyOneFlag | src/Charcoal/Admin/Widget/FormGroup/AclPermissions.php:233-247 | exactly one of the three flags is set, and the status names it |
| AclPermissions.AllowedWins | src/Charcoal/Admin/Widget/FormGroup/AclPermissions.php:238-243 | a permission both allowed and denied is allowed |
| AclPermissions.ClassifiedEntries | src/Charcoal/Admin/Widget/FormGroup/AclPermissions.php:227-256 | one classified entry per permission, each in its loader position |
| AclPermissions.ClassifyEach | src/Charcoal/Admin/Widget/FormGroup/AclPermissions.php:227-256 | the loop over the loaded permissions builds exactly the classified list |
| AclPermissions.AclPermissionsGroup.constructor | src/Charcoal/Admin/Widget/FormGroup/AclPermissions.php:36-46 | a new group has not read the role and holds no allowed or denied list |
| AclPermissions.AclPermissionsGroup.RoleAcl | src/Charcoal/Admin/Widget/FormGroup/AclPermissions.php:174-210 | the role's columns are read and split on the first call only, then kept |
| AclPermissions.AclPermissionsGroup.LoadCategoryPermissions | src/Charcoal/Admin/Widget/FormGroup/AclPermissions.php:216-259 | the role is loaded, then one classified entry per loaded permission, in loader order |
| AclPermissions.AclPermissionsGroup.PermissionCategories | src/Charcoal/Admin/Widget/FormGroup/AclPermissions.php:82-98 | one entry per category, in order, each holding its classified permissions |
| CollectionTemplate.SearchListIdent | src/Charcoal/Admin/Template/Object/CollectionTemplate.php:195-203 | `default_search_list`, else `default_list`, else `default`, each skipped when falsy; never falsy |
| CollectionTemplate.DashboardIdent | src/Charcoal/Admin/Template/Object/CollectionTemplate.php:233-248 | the ident set on the template, else the `dashboard_ident` query parameter, else the metadata's `default_collection_dashboard`; an error when none is given |
| CollectionTemplate.DashboardConfig | src/Charcoal/Admin/Template/Object/CollectionTemplate.php:215-261 | an error without admin metadata or dashboard ident; a non-empty explicit configuration as it is; else the `dashboards` entry the ident names, an error when missing |
| CollectionTemplate.ExplicitConfigNeedsIdent | src/Charcoal/Admin/Template/Object/CollectionTemplate.php:233-248 | an explicit configuration does not spare the ident lookup: without any ident the template fails even when a configuration is given |
| CollectionTemplate.SidemenuOf | src/Charcoal/Admin/Template/Object/CollectionTemplate.php:152-174 | no side menu without a `sidemenu` entry; else its `widget_type` (the side-menu widget by default), with its `widget_options` exactly when set |
| CollectionTemplate.ListLabel | src/Charcoal/Admin/Template/Object/CollectionTemplate.php:277-285 | the translatable label of the default list, else the object type |
| CollectionTemplate.CollectionTemplate.constructor | src/Charcoal/Admin/Template/Object/CollectionTemplate.php:266-291 | a new template has no title |
| CollectionTemplate.CollectionTemplate.Title | src/Charcoal/Admin/Template/Object/CollectionTemplate.php:266-291 | fails as the dashboard configuration does; the configured title is returned without being kept; otherwise `List: <label>` is kept and returned |
| SelectInput.Choices | src/Charcoal/Admin/Property/Input/SelectInput.php:32-46 | the empty choice comes first exactly when the property allows null and is not multiple, followed by the inherited choices in order |
| SelectInput.ParseChoice | src/Charcoal/Admin/Property/Input/SelectInput.php:55-78 | the title is the translated title, else the translated label; subtext and icon default to empty; with an object id the choice is disabled exactly when its value is that id |
| SelectInput.DefaultSelectOptions | src/Charcoal/Admin/Property/Input/SelectInput.php:153-163 | the default picker options have distinct keys |
| SelectInput.SelectOptionsOverride | src/Charcoal/Admin/Property/Input/SelectInput.php:88-93 | settings override the defaults key by key; a default the settings do not name is kept |
| SelectInput.SelectInputOptions.constructor | src/Charcoal/Admin/Property/Input/SelectInput.php:22 | a new input has no picker options |
| SelectInput.SelectInputOptions.SetSelectOptions | src/Charcoal/Admin/Property/Input/SelectInput.php:88-93 | the options become the defaults overridden by the settings |
| SelectInput.SelectInputOptions.MergeSelectOptions | src/Charcoal/Admin/Property/Input/SelectInput.php:101-106 | the settings replace or add keys; on unset options the merge is a type error that changes nothing |
| SelectInput.SelectInputOptions.AddSelectOption | src/Charcoal/Admin/Property/Input/SelectInput.php:116-132 | a non-string key is an invalid argument that changes nothing; otherwise the defaults are loaded when unset and that one key is written |
| SelectInput.SelectInputOptions.SelectOptions | src/Charcoal/Admin/Property/Input/SelectInput.php:139-146 | unset options become the defaults and stay; set ones are returned as they are |
| SelectInput.AddSelectOptionOnlyKey | src/Charcoal/Admin/Property/Input/SelectInput.php:116-132 | adding a key changes that key only: every other option reads as before (or as its default while unset) |
| TickableInput.ParseChoice | src/Charcoal/Admin/Property/AbstractTickableInput.php:33-45 | a set `type` is removed, the generated id is stored under `inputId`, and nothing else changes |
| TickableInput.LayoutFlags | src/Charcoal/Admin/Property/AbstractTickableInput.php:103-112 | one flag per supported layout, in order, true for the current one |
| TickableInput.OneLayoutFlag | src/Charcoal/Admin/Property/AbstractTickableInput.php:103-112 | for a supported layout exactly one flag is true: the current one |
| TickableInput.LayoutFlagsAppend | src/Charcoal/Admin/Property/AbstractTickableInput.php:105-111 | each loop step appends one layout's flag |
| TickableInput.TickableInput.constructor | src/Charcoal/Admin/Property/AbstractTickableInput.php:24 | a new input has no layout |
| TickableInput.TickableInput.SetInputLayout | src/Charcoal/Admin/Property/AbstractTickableInput.php:55-82 | null clears the layout; a non-string is an invalid argument, an unsupported string out of bounds, both leaving the layout unchanged; a supported layout is stored |
| TickableInput.TickableInput.InputLayout | src/Charcoal/Admin/Property/AbstractTickableInput.php:89-96 | the stored layout, `inline` while unset; always a supported layout |
| TickableInput.TickableInput.InputLayouts | src/Charcoal/Admin/Property/AbstractTickableInput.php:103-112 | the loop builds the flags of the supported layouts for the current layout |
| ColorPicker.DefaultPickerOptions | src/Charcoal/Admin/Property/Input/ColorPickerInput.php:103-111 | four default picker options with distinct keys |
| ColorPicker.PickerOptionsOverride | src/Charcoal/Admin/Property/Input/ColorPickerInput.php:38-43 | settings override the defaults key by key; a default the settings do not name is kept |
| ColorPicker.MergePickerOptionsOnlyNamed | src/Charcoal/Admin/Property/Input/ColorPickerInput.php:51-56 | merging changes only the keys the settings name |
| ColorPicker.ColorPickerInput.constructor | src/Charcoal/Admin/Property/Input/ColorPickerInput.php:18 | a new input has no picker options |
| ColorPicker.ColorPickerInput.Type | src/Charcoal/Admin/Property/Input/ColorPickerInput.php:25-28 | the control type is `color` |
| ColorPicker.ColorPickerInput.SetPickerOptions | src/Charcoal/Admin/Property/Input/ColorPickerInput.php:38-43 | the options become the defaults overridden by the settings |
| ColorPicker.ColorPickerInput.MergePickerOptions | src/Charcoal/Admin/Property/Input/ColorPickerInput.php:51-56 | the settings replace or add keys; on unset options the merge is a type error that changes nothing |
| ColorPicker.ColorPickerInput.AddPickerOption | src/Charcoal/Admin/Property/Input/ColorPickerInput.php:66-82 | a non-string key is an invalid argument that changes nothing; otherwise the defaults are loaded when unset and that one key is written |
| ColorPicker.ColorPickerInput.PickerOptions | src/Charcoal/Admin/Property/Input/ColorPickerInput.php:89-96 | unset options become the defaults and stay; set ones are returned as they are |
| DateTimePicker.DefaultOptions | src/Charcoal/Admin/Property/Input/DateTimePickerInput.php:80-86 | distinct keys, the `YYYY-MM-DD HH:mm:ss` format and the input's value as default date |
| DateTimePicker.OptionsOverride | src/Charcoal/Admin/Property/Input/DateTimePickerInput.php:28-33 | the given options override the defaults key by key; a default they do not name is kept |
| DateTimePicker.DefaultsOverDefaults | src/Charcoal/Admin/Property/Input/DateTimePickerInput.php:66-73 | the lazy initialisation, which merges the defaults over themselves, reads as the defaults |
| DateTimePicker.DateTimePickerInput.constructor | src/Charcoal/Admin/Property/Input/DateTimePickerInput.php:18 | a new input has no picker options |
| DateTimePicker.DateTimePickerInput.SetDatetimepickerOptions | src/Charcoal/Admin/Property/Input/DateTimePickerInput.php:28-33 | the options become the defaults overridden by the given ones |
| DateTimePicker.DateTimePickerInput.AddOption | src/Charcoal/Admin/Property/Input/DateTimePickerInput.php:43-59 | a non-string ident is an error that changes nothing; otherwise the defaults are loaded when unset and that one key is written |
| DateTimePicker.DateTimePickerInput.DatetimepickerOptions | src/Charcoal/Admin/Property/Input/DateTimePickerInput.php:66-73 | unset options are set from the defaults and stay; set ones are returned as they are |
| TinymceInput.DefaultDialogTitle | src/Charcoal/Admin/Property/Input/TinymceInput.php:97-103 | `Media Library` in English and `Bibliothèque de médias` in French |
| TinymceInput.DialogTitleOf | src/Charcoal/Admin/Property/Input/TinymceInput.php:81-90 | a translatable title becomes its translation; anything else gives null |
| TinymceInput.AddEditorOptionOnlyKey | src/Charcoal/Admin/Property/Input/TinymceInput.php:64-73 | writing one editor option leaves every other option as it was and adds its key at most once |
| TinymceInput.TinymceInput.constructor | src/Charcoal/Admin/Property/Input/TinymceInput.php:22-29 | a new input has no editor options and no dialog title |
| TinymceInput.TinymceInput.SetEditorOptions | src/Charcoal/Admin/Property/Input/TinymceInput.php:35-39 | the options are replaced wholesale |
| TinymceInput.TinymceInput.AddEditorOption | src/Charcoal/Admin/Property/Input/TinymceInput.php:64-73 | a non-array value is a type error, then a non-string ident an invalid argument, both changing nothing; otherwise that one key is written |
| TinymceInput.TinymceInput.SetDialogTitle | src/Charcoal/Admin/Property/Input/TinymceInput.php:81-90 | the title becomes `DialogTitleOf` the argument |
| TinymceInput.TinymceInput.DialogTitle | src/Charcoal/Admin/Property/Input/TinymceInput.php:110-117 | a null title is set from the translatable default first, so it is then a translation; a set title is kept |
| TextWidget.EmptyNeverShown | src/Charcoal/Admin/Widget/TextWidget.php:66-73 | an empty text is never shown, whatever the flag |
| TextWidget.TranslationShownByFlag | src/Charcoal/Admin/Widget/TextWidget.php:145-152 | a text set from translatable input is always truthy, so it is shown exactly when its flag is on |
| TextWidget.ClearedFlagHides | src/Charcoal/Admin/Widget/TextWidget.php:66-73 | a cleared flag hides any text |
| TextWidget.TextWidget.constructor | src/Charcoal/Admin/Widget/TextWidget.php:16-51 | every flag on, every text empty, so nothing is shown yet |
| TextWidget.TextWidget.SetShowTitle | src/Charcoal/Admin/Widget/TextWidget.php:57-61 | the flag is the truth value of the argument |
| TextWidget.TextWidget.ShowTitle | src/Charcoal/Admin/Widget/TextWidget.php:66-73 | the title is shown exactly when its flag is on and the title is truthy |
| TextWidget.TextWidget.SetShowSubtitle | src/Charcoal/Admin/Widget/TextWidget.php:79-83 | the flag is the truth value of the argument |
| TextWidget.TextWidget.ShowSubtitle | src/Charcoal/Admin/Widget/TextWidget.php:88-95 | the subtitle is shown exactly when its flag is on and the subtitle is truthy |
| TextWidget.TextWidget.SetShowDescription | src/Charcoal/Admin/Widget/TextWidget.php:101-105 | the flag is the truth value of the argument |
| TextWidget.TextWidget.ShowDescription | src/Charcoal/Admin/Widget/TextWidget.php:110-117 | the description is shown exactly when its flag is on and the description is truthy |
| TextWidget.TextWidget.SetShowNotes | src/Charcoal/Admin/Widget/TextWidget.php:123-127 | the flag is the truth value of the argument |
| TextWidget.TextWidget.ShowNotes | src/Charcoal/Admin/Widget/TextWidget.php:132-139 | the notes are shown exactly when their flag is on and they are truthy |
| TextWidget.TextWidget.SetTitle | src/Charcoal/Admin/Widget/TextWidget.php:145-152 | only translatable input replaces the title, which is then shown exactly when its flag is on |
| TextWidget.TextWidget.SetSubtitle | src/Charcoal/Admin/Widget/TextWidget.php:166-173 | only translatable input replaces the subtitle, which is then shown exactly when its flag is on |
| TextWidget.TextWidget.SetDescription | src/Charcoal/Admin/Widget/TextWidget.php:187-194 | only translatable input replaces the description, which is then shown exactly when its flag is on |
| TextWidget.TextWidget.SetNotes | src/Charcoal/Admin/Widget/TextWidget.php:208-215 | only translatable input replaces the notes, which are then shown exactly when their flag is on |
| FormPropertyWidget.ResolvedInputType | src/Charcoal/Admin/Widget/FormPropertyWidget.php:199-216 | always truthy: the metadata's `admin.input_type` when truthy, else the text input, also when the metadata cannot be loaded |
| FormPropertyWidget.NoAdminMetadataIsText | src/Charcoal/Admin/Widget/FormPropertyWidget.php:199-216 | metadata without an `admin` entry resolves to the text input |
| FormPropertyWidget.FormPropertyWidget.constructor | src/Charcoal/Admin/Widget/FormPropertyWidget.php:24-36 | a new widget has no type, input type, ident or value, no data, and is active |
| FormPropertyWidget.FormPropertyWidget.SetActive | src/Charcoal/Admin/Widget/FormPropertyWidget.php:72-79 | only a boolean is accepted and stored; anything else is an invalid argument and changes nothing |
| FormPropertyWidget.FormPropertyWidget.SetPropertyIdent | src/Charcoal/Admin/Widget/FormPropertyWidget.php:94-101 | only a string is accepted and stored; anything else is an invalid argument and changes nothing |
| FormPropertyWidget.FormPropertyWidget.SetData | src/Charcoal/Admin/Widget/FormPropertyWidget.php:42-65 | `type`, `input_type`, `property_ident`, `property_val` and `active` are applied in that order when present and non-null; an invalid ident or flag stops there, leaving the later fields and the stored data untouched; otherwise the data is stored |
| FormPropertyWidget.FormPropertyWidget.SetInputType | src/Charcoal/Admin/Widget/FormPropertyWidget.php:190-194 | the input type is stored |
| FormPropertyWidget.FormPropertyWidget.InputType | src/Charcoal/Admin/Widget/FormPropertyWidget.php:199-216 | a stored input type is returned as is; otherwise it is resolved from the metadata, stored, and never null again |
| Selectize.EscapeRegex | assets/src/scripts/charcoal/admin/property/input/selectize.js:208 | escaping never shortens a separator |
| Selectize.EscapeRegexLiteral | assets/src/scripts/charcoal/admin/property/input/selectize.js:208 | an escaped separator is a literal pattern (every special character preceded by a backslash) that unescapes to the separator |
| Selectize.EscapeRegexPlain | assets/src/scripts/charcoal/admin/property/input/selectize.js:208 | a separator without special characters is kept as it is |
| Selectize.TokenMeaning | assets/src/scripts/charcoal/admin/property/input/selectize.js:198-209 | `comma` becomes a comma with any surrounding blanks, `tab` a run of tabs, any other entry a literal pattern matching itself |
| Selectize.Tokens | assets/src/scripts/charcoal/admin/property/input/selectize.js:197-210 | one pattern per entry |
| Selectize.RewriteSplitOn | assets/src/scripts/charcoal/admin/property/input/selectize.js:197-210 | the reverse loop rewrites every entry in place, at its own position |
| Selectize.Strings | assets/src/scripts/charcoal/admin/property/input/selectize.js:197-210 | the string entries of a list, position for position |
| Selectize.SplitOnSource | assets/src/scripts/charcoal/admin/property/input/selectize.js:194-215 | the reverse in-place rewrite gives exactly `SplitOnPattern`: a list is rewritten and joined with `\|`; a list holding a non-string fails (it has no `replace`); any other value is used as the pattern source |
| Selectize.CompileSplitOn | assets/src/scripts/charcoal/admin/property/input/selectize.js:194-216 | a truthy `splitOn` option becomes the regular expression whose source is `SplitOnPattern` of it, every other option is kept, and a list entry that is not a string fails |
| Selectize.CreateFilter | assets/src/scripts/charcoal/admin/property/input/selectize.js:135-143 | typed input may become a new choice exactly when no existing option's label is strictly equal to it |
| Selectize.Echo | assets/src/scripts/charcoal/admin/property/input/selectize.js:174-179 | the echo creation gives the input as both value and label, and nothing else |
| Selectize.BasePlugins | assets/src/scripts/charcoal/admin/property/input/selectize.js:105-117 | the item plugin always, drag-and-drop exactly for a multiple picker, nothing else |
| Selectize.Separator | assets/src/scripts/charcoal/admin/property/input/selectize.js:90 | the truthy `multiple_separator` option, else `,` (the instance never holds its own) |
| Selectize.Defaults | assets/src/scripts/charcoal/admin/property/input/selectize.js:105-192 | delimiter and label field as configured; a remote source echoes typed text and loads remotely, an object type creates through the quick form and loads objects, otherwise typed text is echoed and created on Enter |
| Selectize.DialogTitle | assets/src/scripts/charcoal/admin/property/input/selectize.js:240-248 | `dialog_title_update` when editing, `dialog_title_create` when creating, each only when set, else the title |
| Selectize.FormStep | assets/src/scripts/charcoal/admin/property/input/selectize.js:250-274 | with an object form ident, creating with a `create` form is step 1 of 2 (`Next`), updating with an `update` form at step 2 finishes (`Finish`), and no matching form gives a null form ident; a string form ident is kept |
| Selectize.TwoStepCreation | assets/src/scripts/charcoal/admin/property/input/selectize.js:250-274 | a two-form object is created in two dialogs: the create form with `Next`, then the update form for the new id with `Finish` |
| Selectize.FormDataWithoutTemplate | assets/src/scripts/charcoal/admin/property/input/selectize.js:276-281 | without a template the input is written under the choice label key (when given) and the form ident and submit label are set; every other entry is kept |
| Selectize.SubstituteInput | assets/src/scripts/charcoal/admin/property/input/selectize.js:282-289 | every template value that is exactly `:input` becomes the input; all else is copied |
| Selectize.LoadItemsUrl | assets/src/scripts/charcoal/admin/property/input/selectize.js:413-434 | no request for an empty query with preloading off; otherwise `selectize/load` under the admin URL, followed by `/` and the encoded query when there is one |
| Selectize.RemoteUrl | assets/src/scripts/charcoal/admin/property/input/selectize.js:374-391 | no request for an empty query; otherwise the remote source followed by the encoded query |
| Selectize.LoadData | assets/src/scripts/charcoal/admin/property/input/selectize.js:423-428 | `load_items` sends exactly the object type and the three selectize parameters, each with the instance's value |
| Selectize.RemoteData | assets/src/scripts/charcoal/admin/property/input/selectize.js:384-388 | `load_from_remote` sends the three selectize parameters and no object type: the `load_items` parameters less `obj_type` |
| Selectize.AssignOption | assets/src/scripts/charcoal/admin/property/input/selectize.js:76-101 | a truthy option replaces its field; an absent or falsy one keeps it |
| Selectize.Assign | assets/src/scripts/charcoal/admin/property/input/selectize.js:76-101 | a field once set is never cleared by a later call, and the separator is never falsy |
| Selectize.AssignIdempotent | assets/src/scripts/charcoal/admin/property/input/selectize.js:76-101 | applying the same options twice is applying them once |
| Selectize.AssignSeparatorForgets | assets/src/scripts/charcoal/admin/property/input/selectize.js:89-90 | earlier options survive a later call that does not give them, except the separator, rebuilt from the later options alone |
| Selectize.SelectizeInput.constructor | assets/src/scripts/charcoal/admin/property/input/selectize.js:74-101 | the instance fields before any options are applied |
| Selectize.SelectizeInput.SetProperties | assets/src/scripts/charcoal/admin/property/input/selectize.js:74-221 | each truthy option replaces its field, a `splitOn` option is compiled to the regular expression of `SplitOnPattern` with every other picker option kept, and the defaults are built from the resulting fields |
| Selectize.ItemFormData | assets/src/scripts/charcoal/admin/property/input/selectize.js:224-289 | without a template the instance's own form data (or a fresh one) gets the input under the label key and the form step, and is kept only when it was an object; with a template and an input, a copy of the template with every `:input` value replaced by the input; with a template and no input, the instance's form data or an empty object as it is; the instance's form data is untouched whenever there is a template |
| Selectize.SelectizeInput.CreateItem | assets/src/scripts/charcoal/admin/property/input/selectize.js:223-313 | the dialog request: title, form step, object type and id, and form data from the template (`:input` substituted), the instance's form data unchanged on the update path with a template and no input, or, without a template, written into the instance's own form data |
| Selectize.SelectizeInput.LoadItemsRequest | assets/src/scripts/charcoal/admin/property/input/selectize.js:413-434 | no request for an empty query with preloading off; the parameters carry the instance's object type |
| Selectize.SelectizeInput.RemoteRequest | assets/src/scripts/charcoal/admin/property/input/selectize.js:374-394 | no request for an empty query, else a URL starting with the remote source; the parameters are those of `load_items` without the object type |
| Selectize.FormDataAccumulates | assets/src/scripts/charcoal/admin/property/input/selectize.js:224-281 | without a template two calls write into the same instance object: an entry written by the first survives the second unless the second overwrites that key |
| SelectizeEmail.AssignIdempotent | assets/src/scripts/charcoal/admin/property/input/selectize/email.js:40-55 | applying the same options twice is applying them once |
| SelectizeEmail.Assign | assets/src/scripts/charcoal/admin/property/input/selectize/email.js:40-55 | a field once set is never cleared by a later call, and the separator is never falsy |
| SelectizeEmail.Defaults | assets/src/scripts/charcoal/admin/property/input/selectize/email.js:59-131 | delimiter as configured, `text` as filter field, `value`, `text` and `email` searched; the item plugin always and drag-and-drop exactly for a multiple picker; an object type creates through the quick form and loads objects, otherwise typed text is echoed as `{value, text}` and created on Enter |
| SelectizeEmail.Localized | assets/src/scripts/charcoal/admin/property/input/selectize/email.js:318-320 | a label field's entry for the current language when truthy, else the field itself; a truthy field gives a truthy label |
| SelectizeEmail.LabelFrom | assets/src/scripts/charcoal/admin/property/input/selectize/email.js:315-321 | the object's pattern field (localised) when truthy, else its name (localised) when truthy, else its id |
| SelectizeEmail.LoadedLabelWithoutPattern | assets/src/scripts/charcoal/admin/property/input/selectize/email.js:317-321 | without a pattern a loaded object is labelled by its name, else its id |
| SelectizeEmail.SavedLabel | assets/src/scripts/charcoal/admin/property/input/selectize/email.js:268-273 | with a pattern configured, or when the object has no truthy field named after the unset pattern, the saved label is the label `load_items` gives |
| SelectizeEmail.LoadedChoice | assets/src/scripts/charcoal/admin/property/input/selectize/email.js:323-328 | a loaded choice holds exactly the object's id as value, its label as text, its e-mail and its colour |
| SelectizeEmail.LoadChoices | assets/src/scripts/charcoal/admin/property/input/selectize/email.js:311-330 | one choice per object of the collection, in collection order |
| SelectizeEmail.SpansShape | assets/src/scripts/charcoal/admin/property/input/selectize/email.js:106-108 | the spans are empty exactly when the choice has neither text nor e-mail, and open with the span of the first one it has |
| SelectizeEmail.RenderItem | assets/src/scripts/charcoal/admin/property/input/selectize/email.js:105-110 | a `div.item` that is empty exactly when the choice has neither text nor e-mail, opening with the name span when there is a text |
| SelectizeEmail.RenderOption | assets/src/scripts/charcoal/admin/property/input/selectize/email.js:111-116 | a `div.option` that is empty exactly when the choice has neither text nor e-mail, opening with the name span when there is a text, the e-mail in a `caption` span |
| SelectizeEmail.FormDataWithoutTemplate | assets/src/scripts/charcoal/admin/property/input/selectize/email.js:202-215 | with a pattern, the input under the pattern field plus the form ident and submit label; without one, `{name: input}` for an input and nothing otherwise |
| SelectizeEmail.EmailInput.constructor | assets/src/scripts/charcoal/admin/property/input/selectize/email.js:39-57 | the instance fields before any options are applied |
| SelectizeEmail.EmailInput.SetProperties | assets/src/scripts/charcoal/admin/property/input/selectize/email.js:39-160 | each truthy option replaces its field, a `splitOn` option is compiled to the regular expression of `SplitOnPattern` as in the base picker with every other picker option kept, and the defaults are built |
| SelectizeEmail.EmailInput.CreateItem | assets/src/scripts/charcoal/admin/property/input/selectize/email.js:162-246 | the dialog request for the quick form, with the form step of the base picker and form data built fresh on each call: from the pattern field, from the template with every `:input` value replaced by the input, or empty for a template without input |
| SelectizeEmail.EmailInput.SavedChoice | assets/src/scripts/charcoal/admin/property/input/selectize/email.js:266-279 | exactly the saved object's id as value, its label (the pattern field looked up even when unset), its e-mail, its colour and the class `new` |
| SelectizeEmail.EmailMethodsReplaceBase | assets/src/scripts/charcoal/admin/property/input/selectize/email.js:162 | as written, once the e-mail script has loaded, every plain selectize picker creates and loads choices with the e-mail picker's code |
| SelectizeEmail.EmailMethodsScoped | assets/src/scripts/charcoal/admin/property/input/selectize/email.js:162 | defined on its own prototype, the e-mail picker uses its methods while the plain picker keeps the base ones, for every method name |

## Left out

- Rendering, translation, class lookup, object and collection loading, the ACL, metadata loading, `uniqid`, `$_GET`, JSON encoding and the database are services outside this code; they appear as parameters or as values the caller supplies.
- PHP values follow PHP 8 semantics: a typed parameter given the wrong type is a `TypeError`; numeric string keys are not converted to integer keys; objects and translation objects stringify as the empty string; `is_numeric` does not model leading whitespace or exponent forms.
- AdminAction.php is not part of this model; nor is the parent `setData` of widgets, whose body sits outside the widget classes.
- The `widget_template` value written to `$GLOBALS` by FormPropertyWidget's `input()` (FormPropertyWidget.php:263, the input type) and by CollectionTemplate's `sidemenu()` (CollectionTemplate.php:162, `charcoal/admin/widget/sidemenu`) is global state and is not modelled; CollectionTemplate.SidemenuOf leaves that write out.
- Generators (`objectRows`, `dbRows` and the like) are modelled as the whole list they yield; laziness and partly consumed output are not modelled.
- Dates and intervals of the time graph widgets are integer time points and a positive step; a month interval becomes a fixed step, and `FillRows` requires the start and end dates.
- Graph.TimeGraphWidget.SetDateInterval and Graph.TimeGraphWidget.FillRows: the step is positive by its type, so the model's filling loop always ends. In the source a negative interval such as `'-1 day'` (or, before PHP 8.3, an unparsable string, which gives a zero interval) is accepted by `setDateInterval`, and then the `while ($starts < $ends)` loop of `fillRows` (AbstractTimeGraphWidget.php:334-339) never ends; that non-termination is not modelled. The SQL of `dbRows` is not modelled, and a missing database row counts as empty columns.
- ImageAttributes.IsNumeric: PHP 8's `is_numeric` also accepts trailing whitespace (and leading whitespace and exponent forms), so `setWidth("10 ")` stores `"10 px"` in the source while ImageAttributes.Dimension keeps `"10 "`; the same holds for ImageAttributes.Image.SetWidth, ImageAttributes.Image.SetHeight, ImageAttributes.Image.SetMaxWidth and ImageAttributes.Image.SetMaxHeight.
- TemplateOptions.TemplateOptionsGroup: in PHP the inherited `formProperties()` and `parsedFormProperties()` call `$this->finalizeStructure()`, which dispatches to the template options override; in the model the wrapped group's FormGroup.StructureGroup.FormProperties finalises with the base step, so a caller must finalise through TemplateOptions.TemplateOptionsGroup.FinalizeStructure first for the controller structure to be installed.
- TableWidget.ComparePriority: a priority that is neither an integer nor an integer string (a decimal or exponent string such as `"1.5"`, a string with surrounding whitespace, a non-numeric string, a float, a boolean, an array) counts as 0; PHP 8's loose `<` orders those by rules of its own, some of them not transitive, over which no sorted order can be stated.
- TableWidget.ParseActionItem: requires an action with a translatable label or a truthy ident; the skip the evidently intended code gives any other action is stated by TableWidget.ParseActionItemIntended (see Findings), but TableWidget.ListAction, TableWidget.BuildListActions, TableWidget.ParseActions and TableWidget.CreateObjectActions require every action they handle to be labelled, so a skipped action in those lists is not modelled.
- TableWidget.ParseActionItem: actions are arrays (`Action` is a field map); the source's `parseActionItem` returns a non-array action unchanged (TableWidget.php:749), and such an action among two or more then makes the typed comparator `sortActionsByPriority(array $a, array $b)` raise a `TypeError`; neither is modelled.
- TableWidget.SortByPriority: actions of equal priority are not ordered as the source orders them. The comparator at TableWidget.php:927-933 never returns 0, so PHP's `uasort` treats the first of two tied actions as the greater and swaps them (two tied actions come out reversed, three `[a, b, c]` come out `[b, c, a]`), while TableWidget.InsertByPriority keeps tied actions in input order. So for a configured object action of priority 1 the source makes it the primary action where the model keeps the default `edit`, and list actions without priorities are listed in another order; the contracts, which say nothing about ties, hold for both orders.
- DateTimePicker.DateTimePickerInput.AddOption: the exception class named at DateTimePickerInput.php:45 is not imported, so PHP raises a plain error; the model reports it as a generic error.
- FormGroup.StructureGroup.FormProperties: the `condition` early return of a conditional group (StructureFormGroup.php:531-535), the `propertiesOptions` merge (:615-621), the stored value handed to `setPropertyVal` (:623-626) and the `l10nMode` fallback (:628-630) act on form property objects, which are not part of this model.
- AclPermissions.Classify and FormGroup.GroupFormProperties: the loose `in_array` of AclPermissions.php:237 and FormGroupWidget.php:107 is modelled as string equality; the lists hold string idents, and the loose equality of two numeric strings such as `"1"` and `"01"` is not modelled.
- FormPropertyWidget: `prop()`, `input()`, the `show_*` flags, `inputId` and `inputName` delegate to the property and input objects, which are not part of this model.
- CSV and file output, and the command-line prompts of the translation script, are I/O.
- ImageAttributes.IsDataUri: nothing in ImageAttributesTrait.php calls `isDataUri`, so the model states it on its own, over strings only.
- JavaScript numbers are integers (no NaN, no fractions), and objects are compared by value; the identity of an object shared between two places is not modelled.
- The deep `$.extend` of the user's selectize options over the defaults is not modelled; the model keeps both side by side.
- Selectize.CompileSplitOn: a `splitOn` list holding a non-string throws, and the model returns no options for it; a syntax error in a user-supplied pattern is not modelled. Selectize.RewriteSplitOn rewrites a fresh copy of the list, so the in-place change the source makes to the caller's own array is not modelled.
- A missing `translations` object (a `TypeError` in the browser) is not modelled.
- AJAX requests, the DOM, dialogs, ClipboardJS and asynchronous callbacks are left out: the second entry of `save_callback`, the items a response carries, `onInitialize`, and the item and option templates of selectize.js:155-171.
- `this.multiple_separator` is never set in selectize.js and is always undefined; a write of form data to a non-object is dropped; a property read on a string or array gives undefined.
- SelectizeEmail.EmailInput: the request URL `object/load` used by `load_items` is a constant of the request, not a function of the model.

Where the code and its documentation differ, the model follows the code:

- FormPropertyWidget.FormPropertyWidget.SetData: the data are not copied when `setPropertyIdent` or `setActive` throws part-way.
- TextWidget.TextWidget.SetTitle: a translatable text is stored as a translation object, which is always truthy, so a set title is shown whenever its flag is on; the same holds for TextWidget.TextWidget.SetSubtitle, TextWidget.TextWidget.SetDescription and TextWidget.TextWidget.SetNotes.
- AdminBase.AdminWidget.SetDataSources: the documentation (AdminWidget.php:279) says FALSE, an empty string or an empty array disables extra sources; in the code FALSE is rejected as an invalid argument (not a string), `""` is rejected as an invalid argument (not an accepted source) and `[]` adds nothing, so sources still unset keep the defaults.
- AdminBase.AdminWidget.ShowLabel: the label `"0"` is falsy in PHP and hides the label.
- FormGroup.FindStructureFormGroup: a form group that is not an array is a `TypeError`, from the `?array` parameter type.
- SelectizeEmail.SavedLabel: an unset pattern looks up the pattern named `"null"`.
- TableWidget.ParseActions: each action is kept under its source key. TableWidget.php:679 passes the key through `parseActionItem`, which returns anything but an array unchanged; the `parseActionIdent` helper (:696-703), which would key an action by its own `ident`, is never called.

## Findings

| source | as written | input that shows it | evidently intended | confidence | as-written member | corrected member |
|---|---|---|---|---|---|---|
| src/Charcoal/Admin/Widget/FormGroup/TemplateOptionsFormGroup.php:331 | `finalizeStructure($reload)` installs the new structure, then calls `parent::finalizeStructure()` without the reload flag, so a group already finalised is not resolved again | a group finalised while its structure resolved to no form group, then finalised with `reload = true` after the controller structure names a form group | pass `$reload` on to the parent, so the reloaded structure's group is applied | not executed | TemplateOptions.TemplateOptionsGroup.FinalizeStructureAsWritten | TemplateOptions.TemplateOptionsGroup.FinalizeStructure |
| assets/src/scripts/charcoal/admin/property/input/selectize/email.js:162 | `Email.parent.create_item = ...` and `Email.parent.load_items = ...` assign onto the prototype of the base selectize input, not the e-mail one | a plain selectize input with an object type, once email.js has loaded: its `create_item` and `load_items` are the e-mail versions | define the methods on the e-mail prototype, leaving the base picker's own | not executed | SelectizeEmail.EmailMethodsReplaceBase | SelectizeEmail.EmailMethodsScoped |
| src/Charcoal/Admin/Widget/TableWidget.php:733 | the `else { continue; }` branch of `parseActionItem` stands outside any loop or switch, which PHP 7 and later reject when compiling the file, so TableWidget.php never loads and no action is parsed | any use of the widget, for instance parsing the default `edit` action of `createObjectActions` | skip an action that has neither a translatable label nor a truthy ident, as `continue` does in the loops that call `parseActionItem` (:633-636, :677-682), and parse every other action | not executed | TableWidget.ParseActionItemAsWritten | TableWidget.ParseActionItemIntended |
