/**
 * The template options form group: a structure form group whose structure
 * comes from the object's template controller, whose controller ident gets
 * the `-template` suffix, and whose template and storage properties fall
 * back on the templateable object's own properties.
 */
module TemplateOptions {
  import opened Php
  import Str
  import FormGroup

  const TemplateSuffix := "-template"

  /** The prefix of the metadata key of a controller's structure. */
  const StructureKeyPrefix := "template/structure="

  /** The ident `setControllerIdent` stores for an ident that names no
    * class: suffixed with `-template` unless it already ends with it. */
  function TemplateIdent(ident: string): (r: string)
    ensures Str.EndsWith(r, TemplateSuffix)
    ensures Str.EndsWith(ident, TemplateSuffix) ==> r == ident
    ensures !Str.EndsWith(ident, TemplateSuffix) ==> r == ident + TemplateSuffix
  {
    if Str.EndsWith(ident, TemplateSuffix) then ident
    else
      var r := ident + TemplateSuffix;
      assert r[|r| - |TemplateSuffix|..] == TemplateSuffix;
      r
  }

  /** Suffixing is idempotent, and the suffix is added at most once. */
  lemma TemplateIdentStable(ident: string)
    ensures TemplateIdent(TemplateIdent(ident)) == TemplateIdent(ident)
    ensures |TemplateIdent(ident)| <= |ident| + |TemplateSuffix|
    ensures TemplateIdent(ident)[..|ident|] == ident
  {
  }

  /** The metadata key under which a controller structure is loaded:
    * the prefix and the serialised `[objType, objId, ...controllers]`. */
  function StructureKey(objType: Val, objId: Val, controllers: seq<string>, serialize: seq<Val> -> string): (key: string)
    ensures Str.StartsWith(key, StructureKeyPrefix)
    ensures key[|StructureKeyPrefix|..] == serialize([objType, objId] + StringVals(controllers))
  {
    StructureKeyPrefix + serialize([objType, objId] + StringVals(controllers))
  }

  function StringVals(xs: seq<string>): (vs: seq<Val>)
    ensures |vs| == |xs| && forall i :: 0 <= i < |xs| ==> vs[i] == Str(xs[i])
  {
    if xs == [] then [] else [Str(xs[0])] + StringVals(xs[1..])
  }

  /** What a property setter is given: null, an ident, a property instance
    * (known by its ident) or any other value. */
  datatype PropertyArg = NullArg | IdentArg(ident: string) | InstanceArg(ident: string) | OtherArg

  /** The property ident a setter accepts: a string or an instance naming a
    * property of the object; a non-string is an invalid argument and an
    * unknown ident an unexpected value. */
  function CheckProperty(arg: PropertyArg, objProperties: set<string>): (r: Result<string>)
    requires !arg.NullArg?
    ensures r.Ok? <==> (arg.IdentArg? || arg.InstanceArg?) && arg.ident in objProperties
    ensures r.Ok? ==> r.value == arg.ident
    ensures arg.OtherArg? ==> r == Err(InvalidArgument)
    ensures (arg.IdentArg? || arg.InstanceArg?) && arg.ident !in objProperties ==> r == Err(UnexpectedValue)
  {
    if arg.OtherArg? then Err(InvalidArgument)
    else if arg.ident !in objProperties then Err(UnexpectedValue)
    else Ok(arg.ident)
  }

  class TemplateOptionsGroup {
    var controllerIdent: Option<string>
    var templateProperty: Option<string>
    var storageProperty: Option<string>
    /** The structure form group this group extends. */
    const group: FormGroup.StructureGroup
    const objIsTemplateable: bool
    /** The idents of the object's properties. */
    const objProperties: set<string>
    /** The idents of the object's model structure properties. */
    const structureProperties: set<string>

    constructor (group: FormGroup.StructureGroup, objIsTemplateable: bool, objProperties: set<string>, structureProperties: set<string>)
      ensures this.group == group && this.objIsTemplateable == objIsTemplateable
      ensures this.objProperties == objProperties && this.structureProperties == structureProperties
      ensures controllerIdent == None && templateProperty == None && storageProperty == None
    {
      this.group := group;
      this.objIsTemplateable := objIsTemplateable;
      this.objProperties := objProperties;
      this.structureProperties := structureProperties;
      controllerIdent := None;
      templateProperty := None;
      storageProperty := None;
    }

    /** `setControllerIdent()`: a class name is stored as given, any other
      * ident with the `-template` suffix. */
    method SetControllerIdent(ident: string, classExists: string -> bool)
      modifies this`controllerIdent
      ensures controllerIdent == Some(if classExists(ident) then ident else TemplateIdent(ident))
      ensures !classExists(ident) ==> Str.EndsWith(controllerIdent.value, TemplateSuffix)
    {
      if classExists(ident) {
        controllerIdent := Some(ident);
        return;
      }
      var suffixed := ident;
      if !Str.EndsWith(ident, TemplateSuffix) {
        suffixed := ident + TemplateSuffix;
      }
      controllerIdent := Some(suffixed);
    }

    /** `setTemplateProperty()`: null clears it; otherwise the argument must
      * name a property of the object, and nothing changes when it does not. */
    method SetTemplateProperty(arg: PropertyArg) returns (err: Option<Exception>)
      modifies this`templateProperty
      ensures arg.NullArg? ==> err == None && templateProperty == None
      ensures !arg.NullArg? ==>
        match CheckProperty(arg, objProperties)
        case Ok(ident) => err == None && templateProperty == Some(ident)
        case Err(e) => err == Some(e) && templateProperty == old(templateProperty)
    {
      if arg.NullArg? {
        templateProperty := None;
        return None;
      }
      var checked := CheckProperty(arg, objProperties);
      if checked.Err? {
        return Some(checked.error);
      }
      templateProperty := Some(checked.value);
      err := None;
    }

    /** `templateProperty()`: a templateable object supplies its
      * `template_ident` property; any other object has none to give. */
    method TemplateProperty() returns (r: Result<string>)
      modifies this`templateProperty
      ensures old(templateProperty).Some? ==> r == Ok(old(templateProperty).value) && templateProperty == old(templateProperty)
      ensures old(templateProperty).None? && !objIsTemplateable ==> r == Err(Runtime) && templateProperty == None
      ensures old(templateProperty).None? && objIsTemplateable ==>
        r == CheckProperty(InstanceArg("template_ident"), objProperties) &&
        templateProperty == (if r.Ok? then Some(r.value) else None)
    {
      if templateProperty.None? {
        if !objIsTemplateable {
          return Err(Runtime);
        }
        var err := SetTemplateProperty(InstanceArg("template_ident"));
        if err.Some? {
          return Err(err.value);
        }
      }
      r := Ok(templateProperty.value);
    }

    /** `setStorageProperty()`: the property must exist on the object and be
      * a model structure property. */
    method SetStorageProperty(arg: PropertyArg) returns (err: Option<Exception>)
      requires !arg.NullArg?
      modifies this`storageProperty
      ensures match CheckProperty(arg, objProperties)
        case Err(e) => err == Some(e) && storageProperty == old(storageProperty)
        case Ok(ident) =>
          if ident in structureProperties then err == None && storageProperty == Some(ident)
          else err == Some(UnexpectedValue) && storageProperty == old(storageProperty)
    {
      var checked := CheckProperty(arg, objProperties);
      if checked.Err? {
        return Some(checked.error);
      }
      if checked.value !in structureProperties {
        return Some(UnexpectedValue);
      }
      storageProperty := Some(checked.value);
      err := None;
    }

    /** What `storageProperty()` answers in the current state: the set
      * property; else, for a templateable object, `template_options` when
      * the object has it as a structure property and an unexpected value
      * otherwise; for any other object a runtime error. */
    function ResolvedStorage(): (r: Result<string>)
      reads this
      ensures storageProperty.Some? ==> r == Ok(storageProperty.value)
      ensures storageProperty.None? && !objIsTemplateable ==> r == Err(Runtime)
      ensures storageProperty.None? && objIsTemplateable ==>
        (r.Ok? <==> "template_options" in objProperties && "template_options" in structureProperties) &&
        (r.Ok? ==> r.value == "template_options") && (r.Err? ==> r.error == UnexpectedValue)
    {
      if storageProperty.Some? then Ok(storageProperty.value)
      else if !objIsTemplateable then Err(Runtime)
      else if "template_options" !in objProperties || "template_options" !in structureProperties then Err(UnexpectedValue)
      else Ok("template_options")
    }

    /** `storageProperty()`: a templateable object supplies its
      * `template_options` property; any other object has none to give. */
    method StorageProperty() returns (r: Result<string>)
      modifies this`storageProperty
      ensures r == old(ResolvedStorage())
      ensures old(storageProperty).Some? ==> r == Ok(old(storageProperty).value) && storageProperty == old(storageProperty)
      ensures old(storageProperty).None? && !objIsTemplateable ==> r == Err(Runtime) && storageProperty == None
      ensures old(storageProperty).None? && objIsTemplateable ==>
        (r.Ok? <==> "template_options" in objProperties && "template_options" in structureProperties) &&
        (r.Ok? ==> r.value == "template_options") &&
        storageProperty == (if r.Ok? then Some("template_options") else None)
    {
      if storageProperty.None? {
        if !objIsTemplateable {
          return Err(Runtime);
        }
        var err := SetStorageProperty(InstanceArg("template_options"));
        if err.Some? {
          return Err(err.value);
        }
      }
      r := Ok(storageProperty.value);
    }

    /** The controller structure `finalizeStructure` installs: the object's
      * template options metadata (an empty structure for other objects),
      * loaded under the controller's key when there is a controller. */
    function ControllerStructure(templateOptions: Val, objType: Val, objId: Val,
                                 serialize: seq<Val> -> string, load: (string, Val, seq<string>) -> Val): (r: Val)
      reads this
      ensures controllerIdent.None? ==> r == (if objIsTemplateable then templateOptions else Arr([]))
      ensures controllerIdent.Some? ==>
        r == load(StructureKey(objType, objId, [controllerIdent.value], serialize),
                  if objIsTemplateable then templateOptions else Arr([]), [controllerIdent.value])
    {
      var base := if objIsTemplateable then templateOptions else Arr([]);
      if controllerIdent.None? then base
      else
        var controllers := [controllerIdent.value];
        load(StructureKey(objType, objId, controllers, serialize), base, controllers)
    }

    /** `finalizeStructure($reload)` as written: the controller structure is
      * installed, but the parent step is asked for without the reload flag,
      * so a reload of a finalised group keeps the group resolved from the
      * previous structure. */
    method FinalizeStructureAsWritten(reload: bool, templateOptions: Val, objType: Val, objId: Val,
                                      serialize: seq<Val> -> string, load: (string, Val, seq<string>) -> Val)
      returns (err: Option<Exception>)
      requires group.Valid()
      modifies this`storageProperty, group`structure, group`isStructureFinalized, group`rawData, group`groupProperties
      ensures group.Valid()
      ensures reload && old(group.isStructureFinalized) && old(storageProperty).Some? ==>
        err == None &&
        group.structure == old(ControllerStructure(templateOptions, objType, objId, serialize, load)) &&
        group.groupProperties == old(group.groupProperties) && group.rawData == old(group.rawData)
    {
      err := None;
      if reload || !group.isStructureFinalized {
        var structure := ControllerStructure(templateOptions, objType, objId, serialize, load);
        var sp := StorageProperty();
        if sp.Err? {
          return Some(sp.error);
        }
        group.structure := structure;
        err := group.FinalizeStructure(false);
      }
    }

    /** `finalizeStructure($reload)` with the reload passed on: whenever it
      * is due, the group is resolved again from the controller structure. */
    method FinalizeStructure(reload: bool, templateOptions: Val, objType: Val, objId: Val,
                             serialize: seq<Val> -> string, load: (string, Val, seq<string>) -> Val)
      returns (err: Option<Exception>)
      requires group.Valid()
      modifies this`storageProperty, group`structure, group`isStructureFinalized, group`rawData, group`groupProperties
      ensures group.Valid()
      ensures !reload && old(group.isStructureFinalized) ==>
        err == None && group.structure == old(group.structure) &&
        group.groupProperties == old(group.groupProperties) && group.rawData == old(group.rawData)
      ensures (reload || !old(group.isStructureFinalized)) && old(storageProperty).Some? ==>
        var structure := old(ControllerStructure(templateOptions, objType, objId, serialize, load));
        group.structure == structure && group.isStructureFinalized &&
        FormGroup.Applied(group.rawData, group.groupProperties, err) ==
          FormGroup.Finalize(structure, old(group.rawData), old(group.groupProperties))
      ensures (reload || !old(group.isStructureFinalized)) && old(ResolvedStorage()).Err? ==>
        err == Some(old(ResolvedStorage()).error) && storageProperty == old(storageProperty) &&
        group.structure == old(group.structure) && group.isStructureFinalized == old(group.isStructureFinalized) &&
        group.groupProperties == old(group.groupProperties) && group.rawData == old(group.rawData)
      ensures (reload || !old(group.isStructureFinalized)) && old(ResolvedStorage()).Ok? ==>
        var structure := old(ControllerStructure(templateOptions, objType, objId, serialize, load));
        storageProperty == Some(old(ResolvedStorage()).value) &&
        group.structure == structure && group.isStructureFinalized &&
        FormGroup.Applied(group.rawData, group.groupProperties, err) ==
          FormGroup.Finalize(structure, old(group.rawData), old(group.groupProperties))
    {
      err := None;
      if reload || !group.isStructureFinalized {
        var structure := ControllerStructure(templateOptions, objType, objId, serialize, load);
        var sp := StorageProperty();
        if sp.Err? {
          return Some(sp.error);
        }
        group.structure := structure;
        err := group.FinalizeStructure(reload);
      }
    }
  }

  /** A structure whose `form_group` lists one property. */
  function OneGroupStructure(): Val
  {
    Record([("admin", Record([("form_group", Record([("properties", List([Str("title")]))]))]))])
  }

  /** A reload that installs a structure resolving to a group must change
    * the group properties of a group finalised with none; the as-written
    * reload leaves them as they were. */
  lemma ReloadResolvesNewGroup()
    ensures FormGroup.Finalize(OneGroupStructure(), None, []).groupProperties == [(IntKey(0), Str("title"))]
    ensures FormGroup.Finalize(OneGroupStructure(), None, []).groupProperties != []
  {
    var s := OneGroupStructure();
    var admin := At(s, "admin");
    assert admin == Record([("form_group", Record([("properties", List([Str("title")]))]))]);
    var named := At(admin, "form_group");
    assert named == Record([("properties", List([Str("title")]))]);
    assert FormGroup.FindStructureFormGroup(s) == Ok(Some(named));
    assert At(Arr(named.entries), "properties") == List([Str("title")]);
  }
}
