/**
 * The e-mail variant of the selectize picker: choices carry a name and an
 * e-mail address, are labelled from a configurable pattern field, and are
 * drawn as name and e-mail spans.
 */
module SelectizeEmail {
  import opened Js
  import Str
  import Php
  import Selectize

  /** The instance's option fields that `set_properties` assigns. */
  datatype EmailSettings = EmailSettings(
    inputId: JsVal,
    objType: JsVal,
    copyItems: JsVal,
    allowUpdate: JsVal,
    title: JsVal,
    translations: JsVal,
    pattern: JsVal,
    multiple: JsVal,
    separator: JsVal,
    formIdent: JsVal,
    selectizeSelector: JsVal)

  /** The option fields as the constructor leaves them. */
  const InitialSettings := EmailSettings(Null, Null, Bool(false), Bool(false), Null, Null, Null, Bool(false), Str(","), Null, Null)

  /** Every field but the separator that is set stays set. */
  predicate KeepsSet(s: EmailSettings, r: EmailSettings)
  {
    (Truthy(s.inputId) ==> Truthy(r.inputId)) && (Truthy(s.objType) ==> Truthy(r.objType))
    && (Truthy(s.copyItems) ==> Truthy(r.copyItems)) && (Truthy(s.allowUpdate) ==> Truthy(r.allowUpdate))
    && (Truthy(s.title) ==> Truthy(r.title)) && (Truthy(s.translations) ==> Truthy(r.translations))
    && (Truthy(s.pattern) ==> Truthy(r.pattern)) && (Truthy(s.multiple) ==> Truthy(r.multiple))
    && (Truthy(s.formIdent) ==> Truthy(r.formIdent)) && (Truthy(s.selectizeSelector) ==> Truthy(r.selectizeSelector))
  }

  /** The assignments of `set_properties`: `opts.data.x || this.x`; a set
    * field is never cleared, and the separator is never falsy. */
  function Assign(s: EmailSettings, id: JsVal, data: JsVal): (r: EmailSettings)
    ensures Truthy(r.separator)
    ensures KeepsSet(s, r)
  {
    EmailSettings(
      Or(id, s.inputId),
      Or(Prop(data, "obj_type"), s.objType),
      Or(Prop(data, "copy_items"), s.copyItems),
      Or(Prop(data, "allow_update"), s.allowUpdate),
      Or(Prop(data, "title"), s.title),
      Or(Prop(data, "translations"), s.translations),
      Or(Prop(data, "pattern"), s.pattern),
      Or(Prop(data, "multiple"), s.multiple),
      Selectize.Separator(Prop(data, "multiple_separator")),
      Or(Prop(data, "form_ident"), s.formIdent),
      Or(Prop(data, "selectize_selector"), s.selectizeSelector))
  }

  /** Applying the same options twice is applying them once. */
  lemma AssignIdempotent(s: EmailSettings, id: JsVal, data: JsVal)
    ensures Assign(Assign(s, id, data), id, data) == Assign(s, id, data)
  {
  }

  /** The e-mail picker's defaults: with an object type, choices are created
    * through the quick form and loaded from the objects; without one,
    * typed text is echoed as `{value, text}` and Enter creates. */
  function Defaults(multiple: JsVal, separator: JsVal, objType: JsVal): (r: Selectize.PickerDefaults)
    ensures r.delimiter == separator && r.filterField == "text"
    ensures r.searchField == ["value", "text", "email"]
    ensures "charcoal_item" in r.plugins
    ensures "drag_drop" in r.plugins <==> Truthy(multiple)
    ensures "create_on_enter" in r.plugins <==> !Truthy(objType)
    ensures (r.create == Selectize.CreateItem <==> Truthy(objType)) && (!Truthy(objType) ==> r.create == Selectize.EchoAs("text"))
    ensures (r.load == Selectize.LoadItems <==> Truthy(objType)) && (!Truthy(objType) ==> r.load == Selectize.NoLoad)
    ensures r.renderItem == Selectize.NameAndEmail && r.renderOption == Selectize.NameAndEmail
  {
    var base := Selectize.BasePlugins(multiple);
    if Truthy(objType) then
      Selectize.PickerDefaults(base, separator, Str("focus"), Selectize.CreateItem, Selectize.LoadItems, "text",
        ["value", "text", "email"], Selectize.NameAndEmail, Selectize.NameAndEmail)
    else
      Selectize.PickerDefaults(base + {"create_on_enter"}, separator, Str("focus"), Selectize.EchoAs("text"), Selectize.NoLoad, "text",
        ["value", "text", "email"], Selectize.NameAndEmail, Selectize.NameAndEmail)
  }

  // ---------------------------------------------------------------------
  // Labels and loaded choices
  // ---------------------------------------------------------------------

  /** A label field's value: its entry for the current language when
    * truthy, else the value itself. */
  function Localized(v: JsVal, lang: string): (r: JsVal)
    ensures Truthy(v) ==> Truthy(r)
    ensures r == Prop(v, lang) || r == v
  {
    Or(Prop(v, lang), v)
  }

  /** The label of an object: its `key` field (localized) when `key` is
    * given, present and truthy; else its `name` (localized) when present
    * and truthy; else its id. */
  function LabelFrom(item: JsVal, key: Php.Option<string>, lang: string): (r: JsVal)
    ensures key.Some? && HasProp(item, key.value) && Truthy(Prop(item, key.value)) ==>
      r == Localized(Prop(item, key.value), lang) && Truthy(r)
    ensures !(key.Some? && HasProp(item, key.value) && Truthy(Prop(item, key.value))) && HasProp(item, "name") && Truthy(Prop(item, "name")) ==>
      r == Localized(Prop(item, "name"), lang) && Truthy(r)
    ensures !(key.Some? && HasProp(item, key.value) && Truthy(Prop(item, key.value))) && !(HasProp(item, "name") && Truthy(Prop(item, "name"))) ==>
      r == Prop(item, "id")
  {
    if key.Some? && HasProp(item, key.value) && Truthy(Prop(item, key.value)) then Localized(Prop(item, key.value), lang)
    else if HasProp(item, "name") && Truthy(Prop(item, "name")) then Localized(Prop(item, "name"), lang)
    else Prop(item, "id")
  }

  /** The label `load_items` gives a loaded object: the pattern field only
    * counts when a pattern is configured. */
  function LoadedLabel(item: JsVal, pattern: JsVal, lang: string): JsVal
  {
    LabelFrom(item, if Truthy(pattern) then Php.Some(ToString(pattern)) else Php.None, lang)
  }

  /** The label the save callback gives a new object: `pattern in obj` is
    * evaluated without first checking that a pattern is configured, so an
    * unset pattern looks for a field named "null"; apart from such a field
    * the label is the one `load_items` gives. */
  function SavedLabel(obj: JsVal, pattern: JsVal, lang: string): (r: JsVal)
    ensures Truthy(pattern) || !(HasProp(obj, ToString(pattern)) && Truthy(Prop(obj, ToString(pattern)))) ==>
      r == LoadedLabel(obj, pattern, lang)
  {
    LabelFrom(obj, Php.Some(ToString(pattern)), lang)
  }

  /** Without a pattern, a loaded object is labelled by its name, else its
    * id. */
  lemma LoadedLabelWithoutPattern(item: JsVal, pattern: JsVal, lang: string)
    requires !Truthy(pattern)
    ensures HasProp(item, "name") && Truthy(Prop(item, "name")) ==> LoadedLabel(item, pattern, lang) == Localized(Prop(item, "name"), lang)
    ensures !(HasProp(item, "name") && Truthy(Prop(item, "name"))) ==> LoadedLabel(item, pattern, lang) == Prop(item, "id")
  {
  }

  /** The choice built from one loaded object. */
  function LoadedChoice(item: JsVal, pattern: JsVal, lang: string): (r: JsVal)
    ensures r.Obj? && r.fields.Keys == {"value", "text", "email", "color"}
    ensures Prop(r, "value") == Prop(item, "id") && Prop(r, "text") == LoadedLabel(item, pattern, lang)
    ensures Prop(r, "email") == Prop(item, "email") && Prop(r, "color") == Prop(item, "color")
  {
    Obj(map["value" := Prop(item, "id"), "text" := LoadedLabel(item, pattern, lang),
            "email" := Prop(item, "email"), "color" := Prop(item, "color")])
  }

  /** The success handler of `load_items`: one choice per object of the
    * collection, in collection order. */
  method LoadChoices(collection: seq<JsVal>, pattern: JsVal, lang: string) returns (items: seq<JsVal>)
    ensures |items| == |collection|
    ensures forall i :: 0 <= i < |collection| ==> items[i] == LoadedChoice(collection[i], pattern, lang)
  {
    items := [];
    var i := 0;
    while i < |collection|
      invariant 0 <= i <= |collection| && |items| == i
      invariant forall j :: 0 <= j < i ==> items[j] == LoadedChoice(collection[j], pattern, lang)
    {
      items := items + [LoadedChoice(collection[i], pattern, lang)];
      i := i + 1;
    }
  }

  // ---------------------------------------------------------------------
  // Rendering
  // ---------------------------------------------------------------------

  /** The spans inside a rendered item or option: the name span when the
    * choice has a text, the e-mail span (opened by `emailOpen`) when it
    * has an e-mail address. */
  function Spans(item: JsVal, emailOpen: string, escape: string -> string): string
  {
    (if Truthy(Prop(item, "text")) then "<span class=\"name\">" + escape(ToString(Prop(item, "text"))) + "</span>" else "")
    + (if Truthy(Prop(item, "email")) then emailOpen + escape(ToString(Prop(item, "email"))) + "</span>" else "")
  }

  /** The spans are empty exactly when the choice has neither a text nor
    * an e-mail address, and open with the span of the first one it has. */
  lemma SpansShape(item: JsVal, emailOpen: string, escape: string -> string)
    requires emailOpen != ""
    ensures Spans(item, emailOpen, escape) == "" <==> !Truthy(Prop(item, "text")) && !Truthy(Prop(item, "email"))
    ensures Truthy(Prop(item, "text")) ==> Str.StartsWith(Spans(item, emailOpen, escape), "<span class=\"name\">")
    ensures !Truthy(Prop(item, "text")) && Truthy(Prop(item, "email")) ==>
      Str.StartsWith(Spans(item, emailOpen, escape), emailOpen)
  {
    var spans := Spans(item, emailOpen, escape);
    if Truthy(Prop(item, "text")) {
      var name := "<span class=\"name\">";
      assert spans == name + (escape(ToString(Prop(item, "text"))) + "</span>"
        + (if Truthy(Prop(item, "email")) then emailOpen + escape(ToString(Prop(item, "email"))) + "</span>" else ""));
    } else if Truthy(Prop(item, "email")) {
      assert spans == emailOpen + (escape(ToString(Prop(item, "email"))) + "</span>");
    }
  }

  /** A `div` around the spans starts with its opening tag, ends with the
    * closing one, and holds the spans right after the opening tag. */
  lemma Wrapped(open: string, spans: string, p: string)
    ensures var r := open + spans + "</div>";
      Str.StartsWith(r, open) && Str.EndsWith(r, "</div>")
      && (r == open + "</div>" <==> spans == "")
      && (Str.StartsWith(spans, p) ==> Str.StartsWith(r[|open|..], p))
  {
    var r := open + spans + "</div>";
    assert r[..|open|] == open;
    assert r[|open|..] == spans + "</div>";
    if r == open + "</div>" {
      assert |spans| == 0;
    }
    if Str.StartsWith(spans, p) {
      assert (spans + "</div>")[..|p|] == spans[..|p|];
    }
  }

  /** `render.item`: a `div.item` holding the spans. */
  function RenderItem(item: JsVal, escape: string -> string): (r: string)
    ensures Str.StartsWith(r, "<div class=\"item\">") && Str.EndsWith(r, "</div>")
    ensures r == "<div class=\"item\"></div>" <==> !Truthy(Prop(item, "text")) && !Truthy(Prop(item, "email"))
    ensures Truthy(Prop(item, "text")) ==> Str.StartsWith(r[18..], "<span class=\"name\">")
    ensures !Truthy(Prop(item, "text")) && Truthy(Prop(item, "email")) ==> Str.StartsWith(r[18..], "<span class=\"email\">")
  {
    var open := "<div class=\"item\">";
    var spans := Spans(item, "<span class=\"email\">", escape);
    SpansShape(item, "<span class=\"email\">", escape);
    Wrapped(open, spans, if Truthy(Prop(item, "text")) then "<span class=\"name\">" else "<span class=\"email\">");
    open + spans + "</div>"
  }

  /** `render.option`: a `div.option`, the e-mail span of class `caption`. */
  function RenderOption(item: JsVal, escape: string -> string): (r: string)
    ensures Str.StartsWith(r, "<div class=\"option\">") && Str.EndsWith(r, "</div>")
    ensures r == "<div class=\"option\"></div>" <==> !Truthy(Prop(item, "text")) && !Truthy(Prop(item, "email"))
    ensures Truthy(Prop(item, "text")) ==> Str.StartsWith(r[20..], "<span class=\"name\">")
    ensures !Truthy(Prop(item, "text")) && Truthy(Prop(item, "email")) ==> Str.StartsWith(r[20..], "<span class=\"caption\">")
  {
    var open := "<div class=\"option\">";
    var spans := Spans(item, "<span class=\"caption\">", escape);
    SpansShape(item, "<span class=\"caption\">", escape);
    Wrapped(open, spans, if Truthy(Prop(item, "text")) then "<span class=\"name\">" else "<span class=\"caption\">");
    open + spans + "</div>"
  }

  // ---------------------------------------------------------------------
  // create_item
  // ---------------------------------------------------------------------

  /** The form data `create_item` sends when no `formData` template is
    * configured: with a pattern, the input under the pattern field plus
    * the form ident and submit label; without one, only `{name: input}`,
    * and nothing at all without an input. */
  function FormDataWithoutTemplate(pattern: JsVal, input: JsVal, st: Selectize.Step): (r: map<string, JsVal>)
    ensures Truthy(pattern) ==> r == Selectize.FormDataWithoutTemplate(map[], input, ToString(pattern), st)
    ensures !Truthy(pattern) && Truthy(input) ==> r == map["name" := input]
    ensures !Truthy(pattern) && !Truthy(input) ==> r == map[]
    ensures !Truthy(pattern) ==> "form_ident" !in r && "submit_label" !in r
  {
    if Truthy(pattern) then Selectize.FormDataWithoutTemplate(map[], input, ToString(pattern), st)
    else if Truthy(input) then map["name" := input]
    else map[]
  }

  class EmailInput {
    var settings: EmailSettings
    var selectizeOptions: JsVal
    var defaults: Php.Option<Selectize.PickerDefaults>

    constructor ()
      ensures settings == InitialSettings && selectizeOptions == Obj(map[]) && defaults.None?
    {
      settings := InitialSettings;
      selectizeOptions := Obj(map[]);
      defaults := Php.None;
    }

    /** `set_properties(opts)`: the options given replace their fields, a
      * `splitOn` option is compiled exactly as in the base picker (every
      * other picker option kept), and the defaults are built. */
    method SetProperties(id: JsVal, data: JsVal) returns (ok: bool)
      modifies this`settings, this`selectizeOptions, this`defaults
      ensures settings == Assign(old(settings), id, data)
      ensures var given := Or(Prop(data, "selectize_options"), old(selectizeOptions));
        var splitOn := Prop(given, "splitOn");
        (ok <==> !(Truthy(splitOn) && splitOn.Arr? && exists i :: 0 <= i < |splitOn.items| && !splitOn.items[i].Str?))
        && (!Truthy(splitOn) || !ok ==> selectizeOptions == given)
        && (ok && Truthy(splitOn) ==> (selectizeOptions.Obj? && selectizeOptions.fields.Keys == given.fields.Keys
              && selectizeOptions.fields["splitOn"] == RegExp(Selectize.SplitOnPattern(splitOn).value)
              && forall k :: k in given.fields && k != "splitOn" ==> selectizeOptions.fields[k] == given.fields[k]))
      ensures ok ==> defaults == Php.Some(Defaults(settings.multiple, settings.separator, settings.objType))
      ensures !ok ==> defaults == old(defaults)
    {
      settings := Assign(settings, id, data);
      selectizeOptions := Or(Prop(data, "selectize_options"), selectizeOptions);
      var compiled := Selectize.CompileSplitOn(selectizeOptions);
      ok := compiled.Some?;
      if ok {
        selectizeOptions := compiled.value;
        defaults := Php.Some(Defaults(settings.multiple, settings.separator, settings.objType));
      }
    }

    /** `create_item(input, callback, {id, step})` of the e-mail picker:
      * the dialog request, built on a fresh form data object each time. */
    method CreateItem(input: JsVal, optId: JsVal, optStep: int, status: (int, int) -> string) returns (req: Selectize.DialogRequest)
      ensures var id := Or(optId, Null);
        var st := Selectize.FormStep(settings.formIdent, id, optStep, settings.title, status);
        req.title == st.title && req.primary == (st.step > 0) && req.objId == id && req.objType == settings.objType
        && req.widgetType == Str("charcoal/admin/widget/quickForm")
        && (IsEmptyObject(Selectize.FormDataTemplate(selectizeOptions)) ==>
              req.formData == Obj(FormDataWithoutTemplate(settings.pattern, input, st)))
        && (!IsEmptyObject(Selectize.FormDataTemplate(selectizeOptions)) && !Truthy(input) ==> req.formData == Obj(map[]))
      ensures !IsEmptyObject(Selectize.FormDataTemplate(selectizeOptions)) && Truthy(input) && Selectize.FormDataTemplate(selectizeOptions).Obj? ==>
        req.formData.Obj? && req.formData.fields.Keys == Selectize.FormDataTemplate(selectizeOptions).fields.Keys
        && forall k :: k in req.formData.fields ==> (req.formData.fields[k] ==
             (if Selectize.FormDataTemplate(selectizeOptions).fields[k] == Str(":input") then input
              else Selectize.FormDataTemplate(selectizeOptions).fields[k]))
    {
      var id := Or(optId, Null);
      var st := Selectize.FormStep(settings.formIdent, id, optStep, settings.title, status);
      var template := Selectize.FormDataTemplate(selectizeOptions);
      var sent := Obj(map[]);
      if IsEmptyObject(template) {
        sent := Obj(FormDataWithoutTemplate(settings.pattern, input, st));
      } else if Truthy(input) {
        var copy := if template.Obj? then template.fields else map[];
        var fields := Selectize.SubstituteInput(copy, input);
        sent := Obj(fields);
      }
      req := Selectize.DialogRequest(st.title, Str("charcoal/admin/widget/quickForm"), settings.objType, id, sent, st.step > 0);
    }

    /** The choice the save callback hands back for a saved object. */
    function SavedChoice(obj: JsVal, lang: string): (r: JsVal)
      reads this
      ensures r.Obj? && Prop(r, "value") == Prop(obj, "id") && Prop(r, "class") == Str("new")
      ensures Prop(r, "text") == SavedLabel(obj, settings.pattern, lang)
      ensures Prop(r, "email") == Prop(obj, "email") && Prop(r, "color") == Prop(obj, "color")
      ensures r.fields.Keys == {"value", "text", "email", "color", "class"}
    {
      Obj(map["value" := Prop(obj, "id"), "text" := SavedLabel(obj, settings.pattern, lang),
              "email" := Prop(obj, "email"), "color" := Prop(obj, "color"), "class" := Str("new")])
    }
  }

  // ---------------------------------------------------------------------
  // Method lookup through the prototype chain
  // ---------------------------------------------------------------------

  /** The implementations a picker method name can resolve to. */
  datatype Impl = BaseCreateItem | BaseLoadItems | EmailCreateItem | EmailLoadItems | BaseSetProperties | EmailSetProperties

  /** The methods defined directly on a prototype object. */
  type Proto = map<string, Impl>

  /** The base picker's prototype and the e-mail picker's, which inherits
    * from it. */
  datatype Prototypes = Prototypes(base: Proto, email: Proto)

  /** The prototypes once `selectize.js` has run and the e-mail prototype
    * has been created from the base one. */
  const BeforeEmailMethods := Prototypes(
    map["set_properties" := BaseSetProperties, "create_item" := BaseCreateItem, "load_items" := BaseLoadItems],
    map["set_properties" := EmailSetProperties])

  /** Method lookup for an instance whose own prototype is `own`, falling
    * back to `parent`. */
  function Resolve(own: Proto, parent: Proto, name: string): Php.Option<Impl>
  {
    if name in own then Php.Some(own[name]) else if name in parent then Php.Some(parent[name]) else Php.None
  }

  /** `email.js` as written: `Email.parent` is the base prototype, so its
    * `create_item` and `load_items` are assigned there. */
  function DefineEmailMethodsAsWritten(p: Prototypes): Prototypes
  {
    Prototypes(p.base["create_item" := EmailCreateItem]["load_items" := EmailLoadItems], p.email)
  }

  /** The evidently intended definitions, on the e-mail prototype. */
  function DefineEmailMethods(p: Prototypes): Prototypes
  {
    Prototypes(p.base, p.email["create_item" := EmailCreateItem]["load_items" := EmailLoadItems])
  }

  /** As written, once `email.js` has loaded every plain selectize picker
    * creates and loads its choices with the e-mail picker's code. */
  lemma EmailMethodsReplaceBase()
    ensures var p := DefineEmailMethodsAsWritten(BeforeEmailMethods);
      Resolve(p.base, map[], "create_item") == Php.Some(EmailCreateItem)
      && Resolve(p.base, map[], "load_items") == Php.Some(EmailLoadItems)
  {
  }

  /** Defined on its own prototype, the e-mail picker uses its methods
    * while the plain picker keeps the base ones, for every method name. */
  lemma {:induction false} EmailMethodsScoped(p: Prototypes, name: string)
    ensures var q := DefineEmailMethods(p);
      Resolve(q.base, map[], name) == Resolve(p.base, map[], name)
      && (name == "create_item" ==> Resolve(q.email, q.base, name) == Php.Some(EmailCreateItem))
      && (name == "load_items" ==> Resolve(q.email, q.base, name) == Php.Some(EmailLoadItems))
      && (name != "create_item" && name != "load_items" ==> Resolve(q.email, q.base, name) == Resolve(p.email, p.base, name))
  {
  }
}
