/**
 * The object form: which form the object's admin metadata supplies and how
 * its groups absorb the global form groups, the order of the form's
 * properties, the form action and the form data overlay.
 */
module ObjectForm {
  import opened Php
  import TableWidget
  import Str

  /** The query parameters `dataFromRequest` accepts. */
  const AcceptedRequestData: seq<string> :=
    ["obj_type", "obj_id", "template", "form_data", "next_url", "l10n_mode", "group_display_mode"]

  predicate Accepted(k: Key)
  {
    k.StrKey? && k.s in AcceptedRequestData
  }

  /** `dataFromRequest()`: the query restricted to the accepted keys, in
    * query order. */
  function DataFromRequest(query: Dict<Key, Val>): (r: Dict<Key, Val>)
    ensures forall k :: Get(r, k) == if Accepted(k) then Get(query, k) else None
    ensures forall k :: k in Keys(r) ==> Accepted(k)
  {
    var r := Restrict(query, Accepted);
    forall k | k in Keys(r) ensures Accepted(k) {
      assert Get(r, k).Some?;
    }
    r
  }

  /** Restricting the query a second time changes nothing. */
  lemma {:induction false} RestrictIdempotent(d: Dict<Key, Val>, keep: Key -> bool)
    ensures Restrict(Restrict(d, keep), keep) == Restrict(d, keep)
  {
    if d != [] {
      RestrictIdempotent(d[1..], keep);
    }
  }

  lemma DataFromRequestIdempotent(query: Dict<Key, Val>)
    ensures DataFromRequest(DataFromRequest(query)) == DataFromRequest(query)
  {
    RestrictIdempotent(query, Accepted);
  }

  // ---------------------------------------------------------------------
  // The form supplied by the object's metadata

  /** The form `dataFromObject` reads: the widget's form ident when truthy,
    * else the admin `default_form`, else the empty ident. */
  function FormIdentOf(formIdent: string, admin: Val): (r: string)
    ensures Truthy(Str(formIdent)) ==> r == formIdent
    ensures !Truthy(Str(formIdent)) && IsSet(admin, "default_form") ==> r == ScalarString(At(admin, "default_form"))
    ensures !Truthy(Str(formIdent)) && !IsSet(admin, "default_form") ==> r == ""
  {
    if Truthy(Str(formIdent)) then formIdent
    else if IsSet(admin, "default_form") then ScalarString(At(admin, "default_form"))
    else ""
  }

  /** `array_merge($global, $own)` of a global group and the form's own
    * entry for it; both must be arrays. */
  function MergeGroup(global: Val, own: Val): (r: Result<Val>)
    ensures r.Ok? <==> global.Arr? && own.Arr?
  {
    if global.Arr? && own.Arr? then Ok(Arr(Merge(global.entries, own.entries))) else Err(TypeError)
  }

  /** The loop of `dataFromObject` over the global groups, in their order:
    * each one the form also lists absorbs the form's entry for it. */
  function MergeGroups(globals: Dict<Key, Val>, groups: Dict<Key, Val>): (r: Result<Dict<Key, Val>>)
    ensures r.Ok? ==> Keys(r.value) == Keys(groups)
    decreases |globals|
  {
    if globals == [] then Ok(groups)
    else
      var k := globals[0].0;
      match Get(groups, k)
      case None => MergeGroups(globals[1..], groups)
      case Some(own) =>
        match MergeGroup(globals[0].1, own)
        case Err(e) => Err(e)
        case Ok(m) =>
          PutKeys(groups, k, m);
          MergeGroups(globals[1..], Put(groups, k, m))
  }

  /** Only the groups that are also global change, each into the global
    * group overridden by the form's own entries; every other group is kept. */
  lemma {:induction false} MergeGroupsGet(globals: Dict<Key, Val>, groups: Dict<Key, Val>, k: Key)
    requires UniqueKeys(globals) && MergeGroups(globals, groups).Ok?
    ensures var r := MergeGroups(globals, groups).value;
      Get(r, k).Some? == Get(groups, k).Some? &&
      (k in Keys(globals) && Get(groups, k).Some? ==> MergeGroup(Get(globals, k).value, Get(groups, k).value) == Ok(Get(r, k).value)) &&
      (k !in Keys(globals) ==> Get(r, k) == Get(groups, k))
    decreases |globals|
  {
    if globals != [] {
      var k0 := globals[0].0;
      var own := Get(groups, k0);
      if own.Some? {
        var m := MergeGroup(globals[0].1, own.value).value;
        MergeGroupsGet(globals[1..], Put(groups, k0, m), k);
      } else {
        MergeGroupsGet(globals[1..], groups, k);
      }
    }
  }

  /** The `i`-th global group is also a group of the form, and the two
    * cannot be merged. */
  predicate FailsAt(globals: Dict<Key, Val>, groups: Dict<Key, Val>, i: int)
  {
    0 <= i < |globals| && Get(groups, globals[i].0).Some? &&
    MergeGroup(globals[i].1, Get(groups, globals[i].0).value).Err?
  }

  /** Merging fails exactly when a group the form shares with the global
    * groups is not an array on one side. */
  lemma {:induction false} MergeGroupsFails(globals: Dict<Key, Val>, groups: Dict<Key, Val>)
    requires UniqueKeys(globals)
    ensures MergeGroups(globals, groups).Err? <==> exists i :: FailsAt(globals, groups, i)
    decreases |globals|
  {
    if globals != [] && !FailsAt(globals, groups, 0) {
      var next := MergeGroupsNext(globals, groups);
      MergeGroupsFails(globals[1..], next);
      forall i | 1 <= i < |globals|
        ensures FailsAt(globals, groups, i) <==> FailsAt(globals[1..], next, i - 1)
      {
        UniqueAt(globals, 0, i);
        assert globals[1..][i - 1] == globals[i];
      }
      if exists j :: FailsAt(globals[1..], next, j) {
        var j :| FailsAt(globals[1..], next, j);
        assert FailsAt(globals, groups, j + 1);
      }
    }
  }

  /** The form groups after the first global group has been merged in,
    * when that merge succeeds. */
  lemma MergeGroupsNext(globals: Dict<Key, Val>, groups: Dict<Key, Val>) returns (next: Dict<Key, Val>)
    requires globals != [] && !FailsAt(globals, groups, 0)
    ensures MergeGroups(globals, groups) == MergeGroups(globals[1..], next)
    ensures forall k :: k != globals[0].0 ==> Get(next, k) == Get(groups, k)
  {
    var k0 := globals[0].0;
    var own := Get(groups, k0);
    if own.Some? {
      next := Put(groups, k0, MergeGroup(globals[0].1, own.value).value);
    } else {
      next := groups;
    }
  }

  /** The same loop, step by step. */
  method MergeGlobalGroups(globals: Dict<Key, Val>, groups: Dict<Key, Val>) returns (r: Result<Dict<Key, Val>>)
    ensures r == MergeGroups(globals, groups)
  {
    var acc := groups;
    var i := 0;
    while i < |globals|
      invariant 0 <= i <= |globals|
      invariant MergeGroups(globals[i..], acc) == MergeGroups(globals, groups)
    {
      assert globals[i..][1..] == globals[i + 1..];
      var k := globals[i].0;
      var own := Get(acc, k);
      if own.Some? {
        var m := MergeGroup(globals[i].1, own.value);
        if m.Err? {
          return Err(m.error);
        }
        acc := Put(acc, k, m.value);
      }
      i := i + 1;
    }
    assert globals[i..] == [];
    r := Ok(acc);
  }

  /** `dataFromObject()` as a value: the selected form of the admin
    * metadata (an empty array when there is none), its groups merged with
    * the global ones when both are present. */
  function ObjectFormData(objMetadata: Val, formIdent: string): Result<Val>
  {
    var admin := At(objMetadata, "admin");
    var forms := At(admin, "forms");
    var ident := FormIdentOf(formIdent, admin);
    var form := if IsSet(forms, ident) then At(forms, ident) else Arr([]);
    if IsSet(form, "groups") && IsSet(admin, "form_groups") then
      var groups := At(form, "groups");
      var globals := At(admin, "form_groups");
      if !groups.Arr? || !globals.Arr? then Err(TypeError)
      else
        match MergeGroups(globals.entries, groups.entries)
        case Err(e) => Err(e)
        case Ok(merged) => Ok(With(form, "groups", Arr(merged)))
    else Ok(form)
  }

  /** What the object form gives: an unknown form is empty, and a form
    * without groups or without global groups is returned untouched. */
  lemma ObjectFormDataCases(objMetadata: Val, formIdent: string)
    ensures var admin := At(objMetadata, "admin");
      var ident := FormIdentOf(formIdent, admin);
      (!IsSet(At(admin, "forms"), ident) ==> ObjectFormData(objMetadata, formIdent) == Ok(Arr([]))) &&
      (!IsSet(admin, "form_groups") ==>
        ObjectFormData(objMetadata, formIdent) == Ok(if IsSet(At(admin, "forms"), ident) then At(At(admin, "forms"), ident) else Arr([])))
  {
    var admin := At(objMetadata, "admin");
    var ident := FormIdentOf(formIdent, admin);
    if !IsSet(At(admin, "forms"), ident) {
      assert !IsSet(Arr([]), "groups");
    }
  }

  /** `dataFromObject()` with its loop. */
  method DataFromObject(objMetadata: Val, formIdent: string) returns (r: Result<Val>)
    ensures r == ObjectFormData(objMetadata, formIdent)
  {
    var admin := At(objMetadata, "admin");
    var forms := At(admin, "forms");
    var ident := FormIdentOf(formIdent, admin);
    var form := if IsSet(forms, ident) then At(forms, ident) else Arr([]);
    if IsSet(form, "groups") && IsSet(admin, "form_groups") {
      var groups := At(form, "groups");
      var globals := At(admin, "form_groups");
      if !groups.Arr? || !globals.Arr? {
        return Err(TypeError);
      }
      var merged := MergeGlobalGroups(globals.entries, groups.entries);
      if merged.Err? {
        return Err(merged.error);
      }
      form := With(form, "groups", Arr(merged.value));
    }
    r := Ok(form);
  }

  // ---------------------------------------------------------------------
  // Form properties, action and display

  /** The metadata `formProperties` walks: with a group, the group's idents
    * first (each flipped to its position) overridden by the metadata, then
    * the remaining properties. */
  function OrderedProperties(props: Dict<string, Val>, group: seq<string>): Dict<string, Val>
  {
    if group == [] then props else Replace(TableWidget.Flip(group), props)
  }

  /** `formProperties($group)`: one form property per entry, or an
    * exception when an entry's metadata is not an array. */
  function FormProperties(props: Dict<string, Val>, group: seq<string>): (r: Result<Dict<string, Val>>)
    ensures r.Ok? <==> forall i :: 0 <= i < |OrderedProperties(props, group)| ==> OrderedProperties(props, group)[i].1.Arr?
    ensures r.Ok? ==> r.value == OrderedProperties(props, group)
    ensures r.Err? ==> r == Err(Generic)
  {
    var ordered := OrderedProperties(props, group);
    if forall i :: 0 <= i < |ordered| ==> ordered[i].1.Arr? then Ok(ordered) else Err(Generic)
  }

  /** With a group, the group's idents come first in group order, followed
    * by the other properties; every property keeps its metadata. */
  lemma FormPropertiesOrder(props: Dict<string, Val>, group: seq<string>)
    requires UniqueKeys(props) && group != []
    ensures var ordered := OrderedProperties(props, group);
      var lead := |Str.Dedup(group)|;
      lead <= |ordered| && Keys(ordered)[..lead] == Str.Dedup(group) &&
      (forall k :: k in Keys(ordered) <==> k in group || k in Keys(props)) &&
      (forall k :: k in Keys(props) ==> Get(ordered, k) == Get(props, k))
  {
    var f := TableWidget.Flip(group);
    ReplaceKeys(f, props);
    forall k | k in Keys(props) ensures Get(Replace(f, props), k) == Get(props, k) {
      ReplaceGet(f, props, k);
    }
  }

  /** A group ident the metadata lacks carries its integer position, so
    * listing it fails the whole form. */
  lemma FormPropertiesMissingIdent(props: Dict<string, Val>, group: seq<string>, ident: string)
    requires UniqueKeys(props) && ident in group && ident !in Keys(props)
    ensures FormProperties(props, group) == Err(Generic)
  {
    var f := TableWidget.Flip(group);
    var ordered := Replace(f, props);
    TableWidget.FlipIndexes(group, ident);
    ReplaceGet(f, props, ident);
    ReplaceKeys(f, props);
    var j := KeyIndex(ordered, ident);
    GetAt(ordered, j);
    assert !ordered[j].1.Arr?;
  }

  /** The position of a key of a dictionary. */
  lemma KeyIndex<V>(d: Dict<string, V>, k: string) returns (j: nat)
    requires k in Keys(d)
    ensures j < |d| && d[j].0 == k
  {
    var i :| 0 <= i < |Keys(d)| && Keys(d)[i] == k;
    KeysAt(d, i);
    j := i;
  }

  /** `action()`: an explicit action wins; otherwise the object is updated
    * when it has an id and saved when it has none. */
  function Action(parentAction: Val, objId: Val): (r: string)
    ensures Truthy(parentAction) ==> r == ScalarString(parentAction)
    ensures !Truthy(parentAction) && Truthy(objId) ==> r == "action/object/update"
    ensures !Truthy(parentAction) && !Truthy(objId) ==> r == "action/object/save"
  {
    if Truthy(parentAction) then ScalarString(parentAction)
    else if Truthy(objId) then "action/object/update"
    else "action/object/save"
  }

  /** The form data after `setFormData`: the object data with the given
    * data replaced into it recursively, without the top-level nulls. */
  function OverlaidFormData(objData: Dict<Key, Val>, data: Dict<Key, Val>): Dict<Key, Val>
  {
    DropNulls(ReplaceRecursive(objData, data))
  }

  /** A key the data sets takes the recursively replaced value, any other
    * keeps the object's; either way a null value disappears. */
  lemma OverlaidFormDataGet(objData: Dict<Key, Val>, data: Dict<Key, Val>, k: Key)
    requires UniqueKeys(objData) && UniqueKeys(data)
    ensures var v := if k in Keys(data) then Some(ReplacedValue(objData, k, Get(data, k).value)) else Get(objData, k);
      Get(OverlaidFormData(objData, data), k) == if v == Some(Null) then None else v
  {
    ReplaceRecursiveUnique(objData, data);
    ReplaceRecursiveGet(objData, data, k);
    DropNullsGet(ReplaceRecursive(objData, data), k);
  }

  class ObjectFormWidget {
    var formIdent: string
    var groupDisplayMode: Val
    var formData: Dict<Key, Val>

    constructor ()
      ensures formIdent == "" && groupDisplayMode == Null && formData == []
    {
      formIdent := "";
      groupDisplayMode := Null;
      formData := [];
    }

    /** `setFormIdent()`: only strings are accepted. */
    method SetFormIdent(ident: Val) returns (err: Option<Exception>)
      modifies this`formIdent
      ensures ident.Str? ==> err == None && formIdent == ident.s
      ensures !ident.Str? ==> err == Some(InvalidArgument) && formIdent == old(formIdent)
    {
      if !ident.Str? {
        return Some(InvalidArgument);
      }
      formIdent := ident.s;
      err := None;
    }

    method SetGroupDisplayMode(mode: Val)
      modifies this`groupDisplayMode
      ensures groupDisplayMode == mode
    {
      groupDisplayMode := mode;
    }

    /** `isTab()`: exactly the display mode `'tab'`. */
    function IsTab(): (r: bool)
      reads this
      ensures r <==> groupDisplayMode == Str("tab")
    {
      groupDisplayMode == Str("tab")
    }

    /** `setFormData()`: the object data overlaid with the given data. */
    method SetFormData(objData: Dict<Key, Val>, data: Dict<Key, Val>)
      modifies this`formData
      ensures formData == OverlaidFormData(objData, data)
      ensures forall i :: 0 <= i < |formData| ==> formData[i].1 != Null
    {
      var merged := ReplaceRecursive(objData, data);
      formData := DropNulls(merged);
      forall i | 0 <= i < |formData| ensures formData[i].1 != Null {
        assert formData[i] in formData;
      }
    }

    /** `formData()`: empty form data falls back on the object's data. */
    method FormData(objData: Dict<Key, Val>) returns (r: Dict<Key, Val>)
      modifies this`formData
      ensures r == formData
      ensures old(formData) != [] ==> formData == old(formData)
      ensures old(formData) == [] ==> formData == objData
    {
      if formData == [] {
        formData := objData;
      }
      r := formData;
    }
  }
}
