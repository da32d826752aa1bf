/**
 * The selectize picker's client-side option building: the `splitOn`
 * separators turned into one regular expression, the create filter, the
 * picker defaults (delimiter, plugins, create strategy), the steps of the
 * quick-form dialog that creates or updates a choice, the form data sent
 * to it, and the load requests.
 */
module Selectize {
  import opened Js
  import Str
  import Php

  // ---------------------------------------------------------------------
  // splitOn
  // ---------------------------------------------------------------------

  /** The characters the source escapes in a literal separator. */
  predicate IsRegexSpecial(ch: char)
  {
    ch in {'-', '/', '\\', '^', '$', '*', '+', '?', '.', '(', ')', '|', '[', ']', '{', '}'}
  }

  /** `s.replace(/[-\/\\^$*+?.()|[\]{}]/g, '\\$&')`: a backslash before each
    * special character. */
  function EscapeRegex(s: string): (r: string)
    ensures |r| >= |s|
  {
    if s == [] then []
    else (if IsRegexSpecial(s[0]) then ['\\', s[0]] else [s[0]]) + EscapeRegex(s[1..])
  }

  /** Drops the backslash in front of each escaped character. */
  function Unescape(r: string): string
  {
    if r == [] then []
    else if r[0] == '\\' && |r| >= 2 then [r[1]] + Unescape(r[2..])
    else [r[0]] + Unescape(r[1..])
  }

  /** A pattern that matches only itself: each special character comes
    * escaped, and no backslash stands alone. */
  predicate WellEscaped(r: string)
  {
    r == [] ||
    (|r| >= 2 && r[0] == '\\' && IsRegexSpecial(r[1]) && WellEscaped(r[2..])) ||
    (!IsRegexSpecial(r[0]) && WellEscaped(r[1..]))
  }

  /** Escaping a separator gives a literal pattern that unescapes to it. */
  lemma {:induction false} EscapeRegexLiteral(s: string)
    ensures WellEscaped(EscapeRegex(s))
    ensures Unescape(EscapeRegex(s)) == s
  {
    if s != [] {
      EscapeRegexLiteral(s[1..]);
      var rest := EscapeRegex(s[1..]);
      if IsRegexSpecial(s[0]) {
        assert EscapeRegex(s) == ['\\', s[0]] + rest;
        assert (['\\', s[0]] + rest)[2..] == rest;
      } else {
        assert EscapeRegex(s) == [s[0]] + rest;
        assert ([s[0]] + rest)[1..] == rest;
      }
    }
  }

  /** A separator without special characters is kept as it is. */
  lemma {:induction false} EscapeRegexPlain(s: string)
    requires forall i :: 0 <= i < |s| ==> !IsRegexSpecial(s[i])
    ensures EscapeRegex(s) == s
  {
    if s != [] {
      EscapeRegexPlain(s[1..]);
    }
  }

  /** One `splitOn` entry: the names `comma` and `tab` stand for patterns,
    * any other entry is a literal separator. */
  function Token(t: string): string
  {
    if t == "comma" then "\\s*,\\s*"
    else if t == "tab" then "\\t+"
    else EscapeRegex(t)
  }

  /** `comma` matches a comma with any surrounding blanks, `tab` a run of
    * tabs; every other entry becomes a pattern matching exactly itself. */
  lemma TokenMeaning(t: string)
    ensures t == "comma" ==> Token(t) == ['\\', 's', '*', ',', '\\', 's', '*']
    ensures t == "tab" ==> Token(t) == ['\\', 't', '+']
    ensures t != "comma" && t != "tab" ==> WellEscaped(Token(t)) && Unescape(Token(t)) == t
  {
    if t != "comma" && t != "tab" {
      EscapeRegexLiteral(t);
    }
  }

  function Tokens(ts: seq<string>): (r: seq<string>)
    ensures |r| == |ts|
  {
    seq(|ts|, i requires 0 <= i < |ts| => Token(ts[i]))
  }

  /** The reverse index loop of `set_properties`: every entry is rewritten
    * in place, at its own position. */
  method RewriteSplitOn(a: array<string>)
    modifies a
    ensures a[..] == Tokens(old(a[..]))
  {
    var i := a.Length - 1;
    while i >= 0
      invariant -1 <= i < a.Length
      invariant forall j :: i < j < a.Length ==> a[j] == Token(old(a[j]))
      invariant forall j :: 0 <= j <= i ==> a[j] == old(a[j])
      decreases i
    {
      a[i] := Token(a[i]);
      i := i - 1;
    }
    assert a[..] == Tokens(old(a[..]));
  }

  /** The regular expression source a `splitOn` option stands for: a list
    * of strings is rewritten entry by entry and joined with `|`; a list
    * holding a non-string has none; any other value is used as it is. */
  function SplitOnPattern(splitOn: JsVal): Php.Option<string>
  {
    if !splitOn.Arr? then Php.Some(PatternOf(splitOn))
    else if exists i :: 0 <= i < |splitOn.items| && !splitOn.items[i].Str? then Php.None
    else Php.Some(Str.Join(Tokens(Strings(splitOn.items)), "|"))
  }

  /** The regular expression source a `splitOn` option becomes, computed as
    * `set_properties` does with the in-place rewrite of the list; a list
    * holding a non-string fails (`replace` is not a function). */
  method SplitOnSource(splitOn: JsVal) returns (r: Php.Option<string>)
    ensures r == SplitOnPattern(splitOn)
    ensures splitOn.Arr? && (exists i :: 0 <= i < |splitOn.items| && !splitOn.items[i].Str?) <==> r.None?
    ensures r.Some? && splitOn.Arr? ==> r.value == Str.Join(Tokens(Strings(splitOn.items)), "|")
    ensures r.Some? && !splitOn.Arr? ==> r.value == PatternOf(splitOn)
  {
    if !splitOn.Arr? {
      return Php.Some(PatternOf(splitOn));
    }
    if exists i :: 0 <= i < |splitOn.items| && !splitOn.items[i].Str? {
      return Php.None;
    }
    var ts := Strings(splitOn.items);
    var a := new string[|ts|](i requires 0 <= i < |ts| => ts[i]);
    assert a[..] == ts;
    RewriteSplitOn(a);
    r := Php.Some(Str.Join(a[..], "|"));
  }

  /** The string entries of a list. */
  function Strings(items: seq<JsVal>): (r: seq<string>)
    ensures |r| == |items|
    ensures forall i :: 0 <= i < |items| && items[i].Str? ==> r[i] == items[i].s
  {
    seq(|items|, i requires 0 <= i < |items| => if items[i].Str? then items[i].s else "")
  }

  /** `new RegExp(v)`'s source for a value that is not a list. */
  function PatternOf(v: JsVal): string
  {
    if v.RegExp? then v.source else ToString(v)
  }

  /** The picker options once a truthy `splitOn` among them has become a
    * regular expression; `None` when a list entry is not a string, which
    * throws. Every other option is kept. */
  method CompileSplitOn(options: JsVal) returns (r: Php.Option<JsVal>)
    ensures var splitOn := Prop(options, "splitOn");
      (r.None? <==> Truthy(splitOn) && splitOn.Arr? && exists i :: 0 <= i < |splitOn.items| && !splitOn.items[i].Str?)
      && (!Truthy(splitOn) ==> r == Php.Some(options))
      && (r.Some? && Truthy(splitOn) ==> (r.value.Obj? && r.value.fields.Keys == options.fields.Keys
            && r.value.fields["splitOn"] == RegExp(SplitOnPattern(splitOn).value)
            && forall k :: k in options.fields && k != "splitOn" ==> r.value.fields[k] == options.fields[k]))
  {
    var splitOn := Prop(options, "splitOn");
    if !Truthy(splitOn) {
      return Php.Some(options);
    }
    var source := SplitOnSource(splitOn);
    if source.None? {
      return Php.None;
    }
    r := Php.Some(Obj(options.fields["splitOn" := RegExp(source.value)]));
  }

  // ---------------------------------------------------------------------
  // createFilter and create
  // ---------------------------------------------------------------------

  /** `createFilter`: the typed input may become a new choice unless an
    * existing option's `field` is strictly equal to it. */
  method CreateFilter(options: seq<JsVal>, field: string, input: JsVal) returns (accept: bool)
    ensures accept <==> forall i :: 0 <= i < |options| ==> Prop(options[i], field) != input
  {
    var i := 0;
    while i < |options|
      invariant 0 <= i <= |options|
      invariant forall j :: 0 <= j < i ==> Prop(options[j], field) != input
    {
      if Prop(options[i], field) == input {
        return false;
      }
      i := i + 1;
    }
    return true;
  }

  /** The echo `create`: the input as both value and `field`. */
  function Echo(input: JsVal, field: string): (r: JsVal)
    requires field != "value"
    ensures r.Obj? && r.fields.Keys == {"value", field}
    ensures Prop(r, "value") == input && Prop(r, field) == input
  {
    Obj(map["value" := input, field := input])
  }

  /** How the picker creates a choice from typed text. */
  datatype Create = EchoAs(field: string) | CreateItem

  /** Where the picker loads its choices from. */
  datatype Load = NoLoad | FromRemote | LoadItems

  /** How items and options are drawn: the library's default, the label
    * template, or the e-mail spans. */
  datatype Render = LibraryRender | LabelTemplate | NameAndEmail

  /** The picker defaults built by `set_properties`, before the user's
    * `selectize_options` are laid over them. */
  datatype PickerDefaults = PickerDefaults(
    plugins: set<string>,
    delimiter: JsVal,
    preload: JsVal,
    create: Create,
    load: Load,
    filterField: string,
    searchField: seq<string>,
    renderItem: Render,
    renderOption: Render)

  /** The plugins before the create strategy is chosen. */
  function BasePlugins(multiple: JsVal): (r: set<string>)
    ensures "charcoal_item" in r
    ensures "drag_drop" in r <==> Truthy(multiple)
    ensures r <= {"charcoal_item", "drag_drop"}
  {
    if Truthy(multiple) then {"drag_drop", "charcoal_item"} else {"charcoal_item"}
  }

  /** `multiple_separator || this.multiple_separator || ','`; the instance
    * never holds a `multiple_separator`, so the second operand is always
    * undefined. */
  function Separator(multipleSeparator: JsVal): (r: JsVal)
    ensures Truthy(multipleSeparator) ==> r == multipleSeparator
    ensures !Truthy(multipleSeparator) ==> r == Str(",")
  {
    Or(multipleSeparator, Or(Undefined, Str(",")))
  }

  /** The base picker's defaults: a remote source echoes typed text and
    * loads remotely; else an object type creates through the quick form
    * and loads objects; else typed text is echoed and Enter creates. */
  function Defaults(multiple: JsVal, separator: JsVal, remoteSource: JsVal, objType: JsVal, templates: JsVal): (r: PickerDefaults)
    ensures r.delimiter == separator && r.filterField == "label"
    ensures "charcoal_item" in r.plugins
    ensures "drag_drop" in r.plugins <==> Truthy(multiple)
    ensures "create_on_enter" in r.plugins <==> !Truthy(remoteSource) && !Truthy(objType)
    ensures r.create == CreateItem <==> !Truthy(remoteSource) && Truthy(objType)
    ensures r.create != CreateItem ==> r.create == EchoAs("label")
    ensures (r.load == FromRemote <==> Truthy(remoteSource)) && (r.load == LoadItems <==> !Truthy(remoteSource) && Truthy(objType))
    ensures (r.renderItem == LabelTemplate <==> Truthy(Prop(templates, "item")))
    ensures (r.renderOption == LabelTemplate <==> Truthy(Prop(templates, "option")))
  {
    var base := BasePlugins(multiple);
    var create := if !Truthy(remoteSource) && Truthy(objType) then CreateItem else EchoAs("label");
    var load := if Truthy(remoteSource) then FromRemote else if Truthy(objType) then LoadItems else NoLoad;
    var plugins := if !Truthy(remoteSource) && !Truthy(objType) then base + {"create_on_enter"} else base;
    PickerDefaults(plugins, separator, Str("focus"), create, load, "label", ["value", "label"],
      if Truthy(Prop(templates, "item")) then LabelTemplate else LibraryRender,
      if Truthy(Prop(templates, "option")) then LabelTemplate else LibraryRender)
  }

  // ---------------------------------------------------------------------
  // create_item
  // ---------------------------------------------------------------------

  /** The dialog title: `dialog_title_update` when editing an existing
    * choice, `dialog_title_create` when creating one, each only if set. */
  function DialogTitle(id: JsVal, title: JsVal, titleUpdate: JsVal, titleCreate: JsVal): (r: JsVal)
    ensures Truthy(id) && Truthy(titleUpdate) ==> r == titleUpdate
    ensures !Truthy(id) && Truthy(titleCreate) ==> r == titleCreate
    ensures (Truthy(id) && !Truthy(titleUpdate)) || (!Truthy(id) && !Truthy(titleCreate)) ==> r == title
  {
    if Truthy(id) then (if Truthy(titleUpdate) then titleUpdate else title)
    else if Truthy(titleCreate) then titleCreate else title
  }

  /** Where the dialog stands: the form to show, the step, the title and
    * the submit button's label. */
  datatype Step = Step(formIdent: JsVal, step: int, title: JsVal, submitLabel: JsVal)

  /** The step/form-ident transition of `create_item`. An object form
    * ident names a `create` and an `update` form: creating with a create
    * form is step 1 of 2 (submit "Next"); updating with an update form
    * shows "Finish" only at step 2; otherwise the form ident is dropped.
    * `status(current, total)` is the translated status template. */
  function FormStep(formIdent: JsVal, id: JsVal, step: int, title: JsVal, status: (int, int) -> string): (r: Step)
    ensures r.submitLabel == Null || r.submitLabel == Str("Next") || r.submitLabel == Str("Finish")
    ensures r.submitLabel == Str("Next") <==> IsObject(formIdent) && !Truthy(id) && Truthy(Prop(formIdent, "create"))
    ensures r.submitLabel == Str("Next") ==> (r.formIdent == Prop(formIdent, "create") && r.step == 1
      && r.title == Str(ToString(title) + " - " + status(1, 2)))
    ensures r.submitLabel == Str("Finish") <==> IsObject(formIdent) && Truthy(id) && Truthy(Prop(formIdent, "update")) && step == 2
    ensures r.submitLabel == Str("Finish") ==> (r.formIdent == Prop(formIdent, "update")
      && r.title == Str(ToString(title) + " - " + status(2, 2)))
    ensures r.submitLabel == Null ==> r.step == step && r.title == title
    ensures !IsObject(formIdent) ==> r.formIdent == formIdent
    ensures IsObject(formIdent) && !Truthy(Prop(formIdent, if Truthy(id) then "update" else "create")) ==> r.formIdent == Null
  {
    if Truthy(formIdent) && IsObject(formIdent) then
      if !Truthy(id) && Truthy(Prop(formIdent, "create")) then
        Step(Prop(formIdent, "create"), 1, Str(ToString(title) + " - " + status(1, 2)), Str("Next"))
      else if Truthy(id) && Truthy(Prop(formIdent, "update")) then
        if step == 2 then Step(Prop(formIdent, "update"), step, Str(ToString(title) + " - " + status(2, 2)), Str("Finish"))
        else Step(Prop(formIdent, "update"), step, title, Null)
      else Step(Null, step, title, Null)
    else Step(formIdent, step, title, Null)
  }

  /** A two-form object is created in two dialogs: the create form
    * ("Next"), then, once saved, the update form for the new id at step 2
    * ("Finish"). */
  lemma TwoStepCreation(formIdent: JsVal, newId: JsVal, title: JsVal, status: (int, int) -> string)
    requires IsObject(formIdent) && Truthy(Prop(formIdent, "create")) && Truthy(Prop(formIdent, "update"))
    requires Truthy(newId)
    ensures var first := FormStep(formIdent, Null, 0, title, status);
      first.step == 1 && first.submitLabel == Str("Next") && first.formIdent == Prop(formIdent, "create")
    ensures var second := FormStep(formIdent, newId, 2, title, status);
      second.submitLabel == Str("Finish") && second.formIdent == Prop(formIdent, "update")
  {
  }

  /** The form data written when no `formData` template is configured:
    * the input under the choice map's label key (if any input), and the
    * form ident and submit label; every other entry is kept. */
  function FormDataWithoutTemplate(base: map<string, JsVal>, input: JsVal, inputKey: string, st: Step): (r: map<string, JsVal>)
    ensures r.Keys == base.Keys + {"form_ident", "submit_label"} + (if Truthy(input) then {inputKey} else {})
    ensures r["form_ident"] == st.formIdent && r["submit_label"] == st.submitLabel
    ensures Truthy(input) && inputKey != "form_ident" && inputKey != "submit_label" ==> r[inputKey] == input
    ensures forall k :: k in base && k != "form_ident" && k != "submit_label" && !(Truthy(input) && k == inputKey) ==> r[k] == base[k]
  {
    var m := if Truthy(input) then base[inputKey := input] else base;
    m["form_ident" := st.formIdent]["submit_label" := st.submitLabel]
  }

  /** The `$.each` over a copy of the `formData` template: every value that
    * is exactly `':input'` becomes the input; all else is copied. */
  method SubstituteInput(template: map<string, JsVal>, input: JsVal) returns (r: map<string, JsVal>)
    ensures r.Keys == template.Keys
    ensures forall k :: k in template ==> r[k] == (if template[k] == Str(":input") then input else template[k])
  {
    r := template;
    var todo := template.Keys;
    while todo != {}
      invariant todo <= template.Keys && r.Keys == template.Keys
      invariant forall k :: k in template && k !in todo ==> r[k] == (if template[k] == Str(":input") then input else template[k])
      invariant forall k :: k in todo ==> r[k] == template[k]
      decreases todo
    {
      var k :| k in todo;
      if r[k] == Str(":input") {
        r := r[k := input];
      }
      todo := todo - {k};
    }
  }

  /** `settings.formData` once the user's options are laid over the
    * defaults: the user's value when defined, else the default `{}`. */
  function FormDataTemplate(userOptions: JsVal): JsVal
  {
    if Prop(userOptions, "formData") != Undefined then Prop(userOptions, "formData") else Obj(map[])
  }

  /** `preload` once the user's options are laid over the defaults. */
  function Preload(userOptions: JsVal): JsVal
  {
    if Prop(userOptions, "preload") != Undefined then Prop(userOptions, "preload") else Str("focus")
  }

  /** What `create_item` asks the dialog to show. */
  datatype DialogRequest = DialogRequest(
    title: JsVal,
    widgetType: JsVal,
    objType: JsVal,
    objId: JsVal,
    formData: JsVal,
    primary: bool)

  // ---------------------------------------------------------------------
  // load_items and load_from_remote
  // ---------------------------------------------------------------------

  /** The URL `load_items` requests, or `None` when it answers with no
    * items at once: an empty query with preloading switched off. */
  function LoadItemsUrl(query: string, preload: JsVal, adminUrl: string, encode: string -> string): (r: Php.Option<string>)
    ensures r.None? <==> query == "" && preload == Bool(false)
    ensures r.Some? ==> Str.StartsWith(r.value, adminUrl + "selectize/load")
    ensures r.Some? ==> (|r.value| == |adminUrl + "selectize/load"| <==> query == "")
    ensures r.Some? && query != "" ==> r.value[|adminUrl + "selectize/load"|..] == "/" + encode(query)
  {
    if query == "" && preload == Bool(false) then Php.None
    else
      var url := adminUrl + "selectize/load";
      Php.Some(if query != "" then url + "/" + encode(query) else url)
  }

  /** The URL `load_from_remote` requests: the source followed by the
    * encoded query; `None` for an empty query. */
  function RemoteUrl(query: string, remoteSource: JsVal, encode: string -> string): (r: Php.Option<string>)
    ensures r.None? <==> query == ""
    ensures r.Some? ==> Str.StartsWith(r.value, ToString(remoteSource)) && r.value[|ToString(remoteSource)|..] == encode(query)
  {
    if query == "" then Php.None else Php.Some(ToString(remoteSource) + encode(query))
  }

  /** The parameters `load_items` sends along: the object type and the
    * three selectize parameters. */
  function LoadData(objType: JsVal, selectizeObjType: JsVal, propertyIdent: JsVal, property: JsVal): (r: map<string, JsVal>)
    ensures r.Keys == {"obj_type", "selectize_obj_type", "selectize_prop_ident", "selectize_property"}
    ensures r["obj_type"] == objType && r["selectize_obj_type"] == selectizeObjType
    ensures r["selectize_prop_ident"] == propertyIdent && r["selectize_property"] == property
  {
    map["obj_type" := objType, "selectize_obj_type" := selectizeObjType,
        "selectize_prop_ident" := propertyIdent, "selectize_property" := property]
  }

  /** The parameters `load_from_remote` sends along: the three selectize
    * parameters, without the object type. */
  function RemoteData(selectizeObjType: JsVal, propertyIdent: JsVal, property: JsVal): (r: map<string, JsVal>)
    ensures "obj_type" !in r
    ensures forall objType :: r == LoadData(objType, selectizeObjType, propertyIdent, property) - {"obj_type"}
  {
    map["selectize_obj_type" := selectizeObjType, "selectize_prop_ident" := propertyIdent,
        "selectize_property" := property]
  }

  // ---------------------------------------------------------------------
  // The picker
  // ---------------------------------------------------------------------

  /** The instance's option fields that `set_properties` assigns from
    * `opts` (all but the form data and the picker options). */
  datatype Settings = Settings(
    inputId: JsVal,
    objType: JsVal,
    remoteSource: JsVal,
    copyItems: JsVal,
    allowUpdate: JsVal,
    allowCreate: JsVal,
    title: JsVal,
    dialogTitleUpdate: JsVal,
    dialogTitleCreate: JsVal,
    translations: JsVal,
    pattern: JsVal,
    multiple: JsVal,
    separator: JsVal,
    formIdent: JsVal,
    formWidget: JsVal,
    selectizeSelector: JsVal,
    choiceObjMap: JsVal,
    selectizePropertyIdent: JsVal,
    selectizeProperty: JsVal,
    selectizeObjType: JsVal,
    selectizeTemplates: JsVal)

  /** The option fields as the constructor leaves them. */
  const InitialSettings := Settings(
    Null,
    Null,
    Null,
    Bool(false),
    Null,
    Undefined,
    Null,
    Undefined,
    Undefined,
    Null,
    Null,
    Bool(false),
    Str(","),
    Null,
    Null,
    Null,
    Obj(map[]),
    Null,
    Null,
    Null,
    Obj(map[]))

  /** The assignments of `set_properties`: `opts.data.x || this.x` for each
    * option (`opts.id` for the input id); the separator alone does not
    * fall back to the current field. */
  function Assign(s: Settings, id: JsVal, data: JsVal): (r: Settings)
    ensures Truthy(r.separator)
    ensures KeepsSet(s, r)
  {
    Settings(
      Or(id, s.inputId),
      Or(Prop(data, "obj_type"), s.objType),
      Or(Prop(data, "remote_source"), s.remoteSource),
      Or(Prop(data, "copy_items"), s.copyItems),
      Or(Prop(data, "allow_update"), s.allowUpdate),
      Or(Prop(data, "allow_create"), s.allowCreate),
      Or(Prop(data, "title"), s.title),
      Or(Prop(data, "dialog_title_update"), s.dialogTitleUpdate),
      Or(Prop(data, "dialog_title_create"), s.dialogTitleCreate),
      Or(Prop(data, "translations"), s.translations),
      Or(Prop(data, "pattern"), s.pattern),
      Or(Prop(data, "multiple"), s.multiple),
      Separator(Prop(data, "multiple_separator")),
      Or(Prop(data, "form_ident"), s.formIdent),
      Or(Prop(data, "form_widget"), s.formWidget),
      Or(Prop(data, "selectize_selector"), s.selectizeSelector),
      Or(Prop(data, "choice_obj_map"), s.choiceObjMap),
      Or(Prop(data, "selectize_property_ident"), s.selectizePropertyIdent),
      Or(Prop(data, "selectize_property"), s.selectizeProperty),
      Or(Prop(data, "selectize_obj_type"), s.selectizeObjType),
      Or(Prop(data, "selectize_templates"), s.selectizeTemplates))
  }

  /** Every field but the separator that is set stays set: `x || this.x`
    * never clears a truthy field. */
  predicate KeepsSet(s: Settings, r: Settings)
  {
    (Truthy(s.inputId) ==> Truthy(r.inputId)) && (Truthy(s.objType) ==> Truthy(r.objType))
    && (Truthy(s.remoteSource) ==> Truthy(r.remoteSource)) && (Truthy(s.copyItems) ==> Truthy(r.copyItems))
    && (Truthy(s.allowUpdate) ==> Truthy(r.allowUpdate)) && (Truthy(s.allowCreate) ==> Truthy(r.allowCreate))
    && (Truthy(s.title) ==> Truthy(r.title)) && (Truthy(s.dialogTitleUpdate) ==> Truthy(r.dialogTitleUpdate))
    && (Truthy(s.dialogTitleCreate) ==> Truthy(r.dialogTitleCreate)) && (Truthy(s.translations) ==> Truthy(r.translations))
    && (Truthy(s.pattern) ==> Truthy(r.pattern)) && (Truthy(s.multiple) ==> Truthy(r.multiple))
    && (Truthy(s.formIdent) ==> Truthy(r.formIdent)) && (Truthy(s.formWidget) ==> Truthy(r.formWidget))
    && (Truthy(s.selectizeSelector) ==> Truthy(r.selectizeSelector)) && (Truthy(s.choiceObjMap) ==> Truthy(r.choiceObjMap))
    && (Truthy(s.selectizePropertyIdent) ==> Truthy(r.selectizePropertyIdent))
    && (Truthy(s.selectizeProperty) ==> Truthy(r.selectizeProperty))
    && (Truthy(s.selectizeObjType) ==> Truthy(r.selectizeObjType))
    && (Truthy(s.selectizeTemplates) ==> Truthy(r.selectizeTemplates))
  }

  /** A truthy option replaces its field; an absent or falsy one keeps it. */
  lemma AssignOption(s: Settings, data: JsVal, id: JsVal)
    ensures Truthy(Prop(data, "obj_type")) ==> Assign(s, id, data).objType == Prop(data, "obj_type")
    ensures !Truthy(Prop(data, "obj_type")) ==> Assign(s, id, data).objType == s.objType
    ensures Truthy(Prop(data, "form_ident")) ==> Assign(s, id, data).formIdent == Prop(data, "form_ident")
    ensures !Truthy(Prop(data, "form_ident")) ==> Assign(s, id, data).formIdent == s.formIdent
    ensures Truthy(id) ==> Assign(s, id, data).inputId == id
    ensures !Truthy(id) ==> Assign(s, id, data).inputId == s.inputId
  {
  }

  /** Applying the same options twice is applying them once. */
  lemma AssignIdempotent(s: Settings, id: JsVal, data: JsVal)
    ensures Assign(Assign(s, id, data), id, data) == Assign(s, id, data)
  {
  }

  /** An earlier call's options survive a later call that does not give
    * them; the separator is the exception, since it is rebuilt from the
    * later options alone. */
  lemma AssignSeparatorForgets(s: Settings, data1: JsVal, data2: JsVal, id: JsVal)
    requires Truthy(Prop(data1, "multiple_separator")) && !Truthy(Prop(data2, "multiple_separator"))
    ensures Assign(Assign(s, id, data1), id, data2).separator == Str(",")
    ensures !Truthy(Prop(data2, "multiple")) ==> Assign(Assign(s, id, data1), id, data2).multiple == Assign(s, id, data1).multiple
  {
  }

  /** The form data `create_item` sends and the form data the widget keeps
    * afterwards, for the form step `st`. */
  method ItemFormData(settings: Settings, selectizeOptions: JsVal, formData: JsVal, input: JsVal, st: Step)
    returns (sent: JsVal, kept: JsVal)
    ensures IsEmptyObject(FormDataTemplate(selectizeOptions)) && formData.Obj? ==>
      kept == sent && sent == Obj(FormDataWithoutTemplate(formData.fields, input, ToString(Prop(settings.choiceObjMap, "label")), st))
    ensures IsEmptyObject(FormDataTemplate(selectizeOptions)) && !Truthy(formData) ==>
      kept == formData && sent == Obj(FormDataWithoutTemplate(map[], input, ToString(Prop(settings.choiceObjMap, "label")), st))
    ensures !IsEmptyObject(FormDataTemplate(selectizeOptions)) ==> kept == formData
    ensures !IsEmptyObject(FormDataTemplate(selectizeOptions)) && !Truthy(input) ==> sent == Or(formData, Obj(map[]))
    ensures !IsEmptyObject(FormDataTemplate(selectizeOptions)) && Truthy(input) && FormDataTemplate(selectizeOptions).Obj? ==>
      sent.Obj? && sent.fields.Keys == FormDataTemplate(selectizeOptions).fields.Keys
      && forall k :: k in sent.fields ==> (sent.fields[k] ==
           (if FormDataTemplate(selectizeOptions).fields[k] == Str(":input") then input else FormDataTemplate(selectizeOptions).fields[k]))
  {
    var template := FormDataTemplate(selectizeOptions);
    kept := formData;
    sent := Or(formData, Obj(map[]));
    if IsEmptyObject(template) {
      if sent.Obj? {
        sent := Obj(FormDataWithoutTemplate(sent.fields, input, ToString(Prop(settings.choiceObjMap, "label")), st));
        if formData.Obj? {
          kept := sent;
        }
      }
    } else if Truthy(input) {
      var copy := if template.Obj? then template.fields else map[];
      var fields := SubstituteInput(copy, input);
      sent := Obj(fields);
    }
  }

  class SelectizeInput {
    var settings: Settings
    var formData: JsVal
    var selectizeOptions: JsVal
    /** The defaults the last `set_properties` built. */
    var defaults: Php.Option<PickerDefaults>

    /** The instance fields before `set_properties`. */
    constructor ()
      ensures settings == InitialSettings && formData == Obj(map[]) && selectizeOptions == Obj(map[])
      ensures defaults.None?
    {
      settings := InitialSettings;
      formData, selectizeOptions := Obj(map[]), Obj(map[]);
      defaults := Php.None;
    }

    /** `set_properties(opts)`: each option given (truthy) replaces its
      * field; a `splitOn` list in the picker options becomes one regular
      * expression, and the defaults are built from the result. A list
      * entry that is not a string throws before the defaults are built. */
    method SetProperties(id: JsVal, data: JsVal) returns (ok: bool)
      modifies this`settings, this`formData, this`selectizeOptions, this`defaults
      ensures settings == Assign(old(settings), id, data)
      ensures formData == Or(Prop(data, "form_data"), old(formData))
      ensures var given := Or(Prop(data, "selectize_options"), old(selectizeOptions));
        var splitOn := Prop(given, "splitOn");
        (ok <==> !(Truthy(splitOn) && splitOn.Arr? && exists i :: 0 <= i < |splitOn.items| && !splitOn.items[i].Str?))
        && (!Truthy(splitOn) ==> selectizeOptions == given)
        && (ok && Truthy(splitOn) ==> (selectizeOptions.Obj? && selectizeOptions.fields.Keys == given.fields.Keys
              && selectizeOptions.fields["splitOn"] == RegExp(SplitOnPattern(splitOn).value)
              && forall k :: k in given.fields && k != "splitOn" ==> selectizeOptions.fields[k] == given.fields[k]))
        && (!ok ==> selectizeOptions == given)
      ensures ok ==> defaults == Php.Some(Defaults(settings.multiple, settings.separator, settings.remoteSource, settings.objType, settings.selectizeTemplates))
      ensures !ok ==> defaults == old(defaults)
    {
      settings := Assign(settings, id, data);
      formData := Or(Prop(data, "form_data"), formData);
      selectizeOptions := Or(Prop(data, "selectize_options"), selectizeOptions);
      var compiled := CompileSplitOn(selectizeOptions);
      ok := compiled.Some?;
      if ok {
        selectizeOptions := compiled.value;
        defaults := Php.Some(Defaults(settings.multiple, settings.separator, settings.remoteSource, settings.objType, settings.selectizeTemplates));
      }
    }

    /** `create_item(input, callback, {id, step})`: the dialog request.
      * Without a `formData` template the instance's own `form_data`
      * object is written to (and so keeps the entries between calls);
      * with a template and an input, a copy of the template with the
      * input substituted is sent and the instance is left alone; with a
      * template and no input (the update path) the instance's form data,
      * or an empty object, is sent as it is. */
    method CreateItem(input: JsVal, optId: JsVal, optStep: int, status: (int, int) -> string) returns (req: DialogRequest)
      modifies this`formData
      ensures var id := Or(optId, Null);
        var st := FormStep(settings.formIdent, id, optStep, DialogTitle(id, settings.title, settings.dialogTitleUpdate, settings.dialogTitleCreate), status);
        req.title == st.title && req.primary == (st.step > 0) && req.objId == id && req.objType == settings.objType
        && req.widgetType == Or(settings.formWidget, Str("charcoal/admin/widget/quick-form"))
        && (IsEmptyObject(FormDataTemplate(selectizeOptions)) && old(formData).Obj? ==>
              formData == req.formData
              && req.formData == Obj(FormDataWithoutTemplate(old(formData).fields, input, ToString(Prop(settings.choiceObjMap, "label")), st)))
        && (IsEmptyObject(FormDataTemplate(selectizeOptions)) && !Truthy(old(formData)) ==>
              formData == old(formData)
              && req.formData == Obj(FormDataWithoutTemplate(map[], input, ToString(Prop(settings.choiceObjMap, "label")), st)))
      ensures !IsEmptyObject(FormDataTemplate(selectizeOptions)) ==> formData == old(formData)
      ensures !IsEmptyObject(FormDataTemplate(selectizeOptions)) && !Truthy(input) ==>
        req.formData == Or(old(formData), Obj(map[]))
      ensures !IsEmptyObject(FormDataTemplate(selectizeOptions)) && Truthy(input) && FormDataTemplate(selectizeOptions).Obj? ==>
        req.formData.Obj? && req.formData.fields.Keys == FormDataTemplate(selectizeOptions).fields.Keys
        && forall k :: k in req.formData.fields ==> (req.formData.fields[k] ==
             (if FormDataTemplate(selectizeOptions).fields[k] == Str(":input") then input else FormDataTemplate(selectizeOptions).fields[k]))
    {
      var id := Or(optId, Null);
      var st := FormStep(settings.formIdent, id, optStep, DialogTitle(id, settings.title, settings.dialogTitleUpdate, settings.dialogTitleCreate), status);
      var sent;
      sent, formData := ItemFormData(settings, selectizeOptions, formData, input, st);
      req := DialogRequest(st.title, Or(settings.formWidget, Str("charcoal/admin/widget/quick-form")), settings.objType, id, sent, st.step > 0);
    }

    /** `load_items`: the request URL, or none for an empty query with
      * preloading off, and the parameters sent. */
    function LoadItemsRequest(query: string, adminUrl: string, encode: string -> string): (r: (Php.Option<string>, map<string, JsVal>))
      reads this
      ensures r.0.None? <==> query == "" && Preload(selectizeOptions) == Bool(false)
      ensures "obj_type" in r.1 && r.1["obj_type"] == settings.objType
    {
      (LoadItemsUrl(query, Preload(selectizeOptions), adminUrl, encode),
       LoadData(settings.objType, settings.selectizeObjType, settings.selectizePropertyIdent, settings.selectizeProperty))
    }

    /** `load_from_remote`: the request URL, or none for an empty query,
      * and the parameters sent, which are those of `load_items` without
      * the object type. */
    function RemoteRequest(query: string, adminUrl: string, encode: string -> string): (r: (Php.Option<string>, map<string, JsVal>))
      reads this
      ensures r.0.None? <==> query == ""
      ensures r.0.Some? ==> Str.StartsWith(r.0.value, ToString(settings.remoteSource))
      ensures "obj_type" !in r.1 && r.1 == LoadItemsRequest(query, adminUrl, encode).1 - {"obj_type"}
    {
      (RemoteUrl(query, settings.remoteSource, encode),
       RemoteData(settings.selectizeObjType, settings.selectizePropertyIdent, settings.selectizeProperty))
    }
  }

  /** Two calls without a template write into the same instance object:
    * an entry written by the first call survives the second unless the
    * second overwrites that key. */
  lemma FormDataAccumulates(base: map<string, JsVal>, input1: JsVal, input2: JsVal, key1: string, key2: string, st1: Step, st2: Step)
    requires Truthy(input1) && key1 != key2 && key1 != "form_ident" && key1 != "submit_label"
    ensures var after1 := FormDataWithoutTemplate(base, input1, key1, st1);
      var after2 := FormDataWithoutTemplate(after1, input2, key2, st2);
      key1 in after2 && after2[key1] == input1
  {
  }
}
