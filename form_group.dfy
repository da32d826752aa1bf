/**
 * Form groups: the generic group widget, which yields the form's
 * properties that belong to the group, and the structure form group, which
 * resolves its group from the metadata of a structure property and names
 * each nested input after the property that stores it.
 */
module FormGroup {
  import opened Php
  import Str

  /** The structure display that hides the group's header and footer. */
  const SeamlessDisplay := "seamless"

  // ---------------------------------------------------------------------
  // Group widget

  /** What `setData` leaves in the group properties: a non-null
    * `properties` entry replaces them, and the `array` parameter type of
    * `setGroupProperties` rejects anything but an array. */
  function GroupPropertiesAfter(current: Dict<Key, Val>, data: Val): (r: Result<Dict<Key, Val>>)
    ensures r.Err? <==> At(data, "properties") != Null && !At(data, "properties").Arr?
    ensures At(data, "properties") == Null ==> r == Ok(current)
    ensures At(data, "properties").Arr? ==> r == Ok(At(data, "properties").entries)
  {
    var p := At(data, "properties");
    if p == Null then Ok(current)
    else if p.Arr? then Ok(p.entries)
    else Err(TypeError)
  }

  class GroupWidget {
    var groupProperties: Dict<Key, Val>

    constructor ()
      ensures groupProperties == []
    {
      groupProperties := [];
    }

    /** `setData`: replaces the group properties when the data names them. */
    method SetData(data: Val) returns (err: Option<Exception>)
      modifies this`groupProperties
      ensures match GroupPropertiesAfter(old(groupProperties), data)
        case Ok(g) => err == None && groupProperties == g
        case Err(e) => err == Some(e) && groupProperties == old(groupProperties)
    {
      var p := At(data, "properties");
      if p != Null {
        if p.Arr? {
          groupProperties := p.entries;
        } else {
          return Some(TypeError);
        }
      }
      return None;
    }
  }

  /** A form property widget as the form hands it to the group: its
    * localisation mode (`""` when it has none) and its value. */
  datatype FormProperty = FormProperty(l10nMode: string, val: Val)

  /** `in_array($ident, $groupProperties)` for a string ident. */
  predicate InGroup(ident: string, group: Dict<Key, Val>)
  {
    Str(ident) in Values(group)
  }

  /** The property as the group yields it: valued from the form's object
    * when there is one, and given the group's localisation mode when it
    * has none of its own. */
  function Prepared(ident: string, p: FormProperty, groupL10n: string, objVal: Option<string -> Val>): FormProperty
  {
    var valued := if objVal.Some? then p.(val := objVal.value(ident)) else p;
    if Truthy(Str(valued.l10nMode)) then valued else valued.(l10nMode := groupL10n)
  }

  /** `formProperties()`: the form's properties whose ident is one of the
    * group's values, in the form's order. */
  function GroupFormProperties(props: seq<(string, FormProperty)>, group: Dict<Key, Val>,
                               groupL10n: string, objVal: Option<string -> Val>): (r: seq<(string, FormProperty)>)
    ensures |r| <= |props|
  {
    if props == [] then []
    else
      var rest := GroupFormProperties(props[1..], group, groupL10n, objVal);
      if InGroup(props[0].0, group) then [(props[0].0, Prepared(props[0].0, props[0].1, groupL10n, objVal))] + rest
      else rest
  }

  /** The group yields exactly the group members among the form's
    * properties, each valued and localised as `Prepared` says. */
  lemma {:induction false} GroupFormPropertiesMembers(props: seq<(string, FormProperty)>, group: Dict<Key, Val>,
                                                      groupL10n: string, objVal: Option<string -> Val>,
                                                      ident: string, q: FormProperty)
    ensures (ident, q) in GroupFormProperties(props, group, groupL10n, objVal) <==>
      InGroup(ident, group) &&
      exists j :: 0 <= j < |props| && props[j].0 == ident && q == Prepared(ident, props[j].1, groupL10n, objVal)
  {
    if props != [] {
      GroupFormPropertiesMembers(props[1..], group, groupL10n, objVal, ident, q);
      if InGroup(ident, group) && (exists j :: 0 <= j < |props| && props[j].0 == ident && q == Prepared(ident, props[j].1, groupL10n, objVal)) {
        var j :| 0 <= j < |props| && props[j].0 == ident && q == Prepared(ident, props[j].1, groupL10n, objVal);
        if j > 0 {
          assert props[1..][j - 1] == props[j];
        }
      }
    }
  }

  /** The group keeps the form's order: filtering a concatenation is
    * concatenating the filtered parts. */
  lemma {:induction false} GroupFormPropertiesConcat(a: seq<(string, FormProperty)>, b: seq<(string, FormProperty)>,
                                                     group: Dict<Key, Val>, groupL10n: string, objVal: Option<string -> Val>)
    ensures GroupFormProperties(a + b, group, groupL10n, objVal) ==
      GroupFormProperties(a, group, groupL10n, objVal) + GroupFormProperties(b, group, groupL10n, objVal)
  {
    if a == [] {
      assert a + b == b;
    } else {
      assert (a + b)[1..] == a[1..] + b;
      GroupFormPropertiesConcat(a[1..], b, group, groupL10n, objVal);
    }
  }

  /** A yielded property keeps its own localisation mode and otherwise
    * inherits the group's. */
  lemma GroupFormPropertiesL10n(props: seq<(string, FormProperty)>, group: Dict<Key, Val>,
                                groupL10n: string, objVal: Option<string -> Val>, k: nat)
    requires k < |GroupFormProperties(props, group, groupL10n, objVal)|
    ensures var (ident, q) := GroupFormProperties(props, group, groupL10n, objVal)[k];
      InGroup(ident, group) &&
      exists j :: 0 <= j < |props| && props[j].0 == ident &&
        q.l10nMode == (if Truthy(Str(props[j].1.l10nMode)) then props[j].1.l10nMode else groupL10n)
  {
    var r := GroupFormProperties(props, group, groupL10n, objVal);
    GroupFormPropertiesMembers(props, group, groupL10n, objVal, r[k].0, r[k].1);
  }

  // ---------------------------------------------------------------------
  // Structure form group: resolving the group

  /** A resolved group must be an array: the `?array` return type of
    * `findStructureFormGroup` rejects anything else. */
  function AsGroup(v: Val): Result<Option<Val>>
  {
    if v.Arr? then Ok(Some(v)) else Err(TypeError)
  }

  /** `findStructureFormGroup()` over the structure metadata: a string
    * `form_group` naming an entry of `form_groups` selects it, a non-string
    * `form_group` is the group itself, and otherwise a string
    * `default_form_group` naming an entry selects that entry. */
  function FindStructureFormGroup(struct: Val): (r: Result<Option<Val>>)
    ensures r.Ok? && r.value.Some? ==> r.value.value.Arr?
    ensures var admin := At(struct, "admin");
      var named := At(admin, "form_group");
      var def := At(admin, "default_form_group");
      var groups := At(admin, "form_groups");
      (r == Ok(None) <==>
        (named == Null || (named.Str? && !IsSet(groups, named.s))) && !(def.Str? && IsSet(groups, def.s))) &&
      (named.Str? && IsSet(groups, named.s) ==> r == AsGroup(At(groups, named.s))) &&
      (named != Null && !named.Str? ==> r == AsGroup(named)) &&
      ((named == Null || (named.Str? && !IsSet(groups, named.s))) && def.Str? && IsSet(groups, def.s) ==>
        r == AsGroup(At(groups, def.s)))
  {
    var admin := At(struct, "admin");
    var named := At(admin, "form_group");
    var groups := At(admin, "form_groups");
    if named != Null && !named.Str? then AsGroup(named)
    else if named.Str? && IsSet(groups, named.s) then AsGroup(At(groups, named.s))
    else
      var def := At(admin, "default_form_group");
      if def.Str? && IsSet(groups, def.s) then AsGroup(At(groups, def.s))
      else Ok(None)
  }

  /** `structProperties()`: the structure's `properties`, or an empty array. */
  function StructProperties(struct: Val): (r: Val)
    ensures IsSet(struct, "properties") ==> r == At(struct, "properties")
    ensures !IsSet(struct, "properties") ==> r == Arr([])
  {
    if IsSet(struct, "properties") then At(struct, "properties") else Arr([])
  }

  /** `autoFormGroup()` once resolved: the structure's `auto_form_group`,
    * true when unset. */
  function AutoFormGroupOf(struct: Val): (r: Val)
    ensures r != Null
    ensures IsSet(At(struct, "admin"), "auto_form_group") ==> r == At(At(struct, "admin"), "auto_form_group")
  {
    var setting := At(At(struct, "admin"), "auto_form_group");
    if setting != Null then setting else Bool(true)
  }

  // ---------------------------------------------------------------------
  // Structure form group: parsing the group's properties

  /** The camelised property ident of a group entry: a bare string names the
    * property, otherwise the entry's key does. */
  function EntryIdent(e: (Key, Val), camelize: string -> string): string
  {
    camelize(if e.1.Str? then e.1.s else KeyString(e.0))
  }

  /** The group entry's own metadata; a bare string carries none. */
  function EntryMeta(e: (Key, Val)): Val
  {
    if e.1.Str? then Null else e.1
  }

  /** `array_merge($groupMeta, $structureMeta)` when the group gives an
    * array, else the structure's metadata alone. */
  function MergedMeta(own: Val, available: Val): (r: Result<Val>)
    ensures r.Err? <==> own.Arr? && !available.Arr?
    ensures !own.Arr? ==> r == Ok(available)
  {
    if !own.Arr? then Ok(available)
    else if available.Arr? then Ok(Arr(Merge(own.entries, available.entries)))
    else Err(TypeError)
  }

  /** On a clash the structure's metadata wins; keys it lacks keep the
    * group's value. */
  lemma MergedMetaStructureWins(own: Val, available: Val, k: string)
    requires own.Arr? && available.Arr? && UniqueKeys(own.entries) && UniqueKeys(available.entries)
    ensures MergedMeta(own, available).Ok?
    ensures At(MergedMeta(own, available).value, k) ==
      if StrKey(k) in Keys(available.entries) then At(available, k) else At(own, k)
  {
    var m := Merge(own.entries, available.entries);
    MergeStrKey(own.entries, available.entries, k);
    LookupGet(m, k);
    LookupGet(own.entries, k);
    LookupGet(available.entries, k);
  }

  /** The camelised idents of the group entries the structure provides, in
    * group order. */
  function AvailableIdents(group: Dict<Key, Val>, available: Val, camelize: string -> string): (ks: seq<Key>)
    ensures forall k :: k in ks ==> k.StrKey? && IsSet(available, k.s)
    decreases |group|
  {
    if group == [] then []
    else
      var n := |group|;
      var ident := EntryIdent(group[n - 1], camelize);
      AvailableIdents(group[..n - 1], available, camelize) + (if IsSet(available, ident) then [StrKey(ident)] else [])
  }

  /** `parsedFormProperties()` before the automatic fallback: every group
    * entry whose property the structure provides, keyed by its camelised
    * ident, with the merged metadata. */
  function ParseGroup(group: Dict<Key, Val>, available: Val, camelize: string -> string): Result<Dict<Key, Val>>
    decreases |group|
  {
    if group == [] then Ok([])
    else
      var n := |group|;
      match ParseGroup(group[..n - 1], available, camelize)
      case Err(e) => Err(e)
      case Ok(acc) =>
        var ident := EntryIdent(group[n - 1], camelize);
        if !IsSet(available, ident) then Ok(acc)
        else
          match MergedMeta(EntryMeta(group[n - 1]), At(available, ident))
          case Err(e) => Err(e)
          case Ok(m) => Ok(Put(acc, StrKey(ident), m))
  }

  /** The parsed properties are keyed by the provided idents, each once,
    * in the order of their first mention in the group. */
  lemma ParseGroupKeys(group: Dict<Key, Val>, available: Val, camelize: string -> string)
    requires ParseGroup(group, available, camelize).Ok?
    ensures Keys(ParseGroup(group, available, camelize).value) == Str.Dedup(AvailableIdents(group, available, camelize))
    ensures UniqueKeys(ParseGroup(group, available, camelize).value)
  {
    ParseGroupOrder(group, available, camelize);
    ParseGroupUnique(group, available, camelize);
  }

  lemma {:induction false} ParseGroupOrder(group: Dict<Key, Val>, available: Val, camelize: string -> string)
    requires ParseGroup(group, available, camelize).Ok?
    ensures Keys(ParseGroup(group, available, camelize).value) == Str.Dedup(AvailableIdents(group, available, camelize))
    decreases |group|
  {
    if group != [] {
      var n := |group|;
      var prefix := group[..n - 1];
      ParseGroupStep(group, available, camelize);
      ParseGroupOrder(prefix, available, camelize);
      var acc := ParseGroup(prefix, available, camelize).value;
      var ident := EntryIdent(group[n - 1], camelize);
      var ps := AvailableIdents(prefix, available, camelize);
      if IsSet(available, ident) {
        PutKeys(acc, StrKey(ident), MergedMeta(EntryMeta(group[n - 1]), At(available, ident)).value);
        Str.DedupSnoc(ps, StrKey(ident));
      } else {
        assert ps + [] == ps;
      }
    }
  }

  lemma {:induction false} ParseGroupUnique(group: Dict<Key, Val>, available: Val, camelize: string -> string)
    requires ParseGroup(group, available, camelize).Ok?
    ensures UniqueKeys(ParseGroup(group, available, camelize).value)
    decreases |group|
  {
    if group != [] {
      var n := |group|;
      var prefix := group[..n - 1];
      ParseGroupStep(group, available, camelize);
      ParseGroupUnique(prefix, available, camelize);
      var ident := EntryIdent(group[n - 1], camelize);
      if IsSet(available, ident) {
        PutKeys(ParseGroup(prefix, available, camelize).value, StrKey(ident),
          MergedMeta(EntryMeta(group[n - 1]), At(available, ident)).value);
      }
    }
  }

  /** One step of `ParseGroup` and `AvailableIdents`: the last entry of the
    * group on top of the rest. */
  lemma ParseGroupStep(group: Dict<Key, Val>, available: Val, camelize: string -> string)
    requires group != [] && ParseGroup(group, available, camelize).Ok?
    ensures var prefix := group[..|group| - 1];
      var ident := EntryIdent(group[|group| - 1], camelize);
      ParseGroup(prefix, available, camelize).Ok?
      && AvailableIdents(group, available, camelize)
         == AvailableIdents(prefix, available, camelize) + (if IsSet(available, ident) then [StrKey(ident)] else [])
      && (IsSet(available, ident) ==>
            MergedMeta(EntryMeta(group[|group| - 1]), At(available, ident)).Ok?
            && ParseGroup(group, available, camelize).value
               == Put(ParseGroup(prefix, available, camelize).value, StrKey(ident),
                      MergedMeta(EntryMeta(group[|group| - 1]), At(available, ident)).value))
      && (!IsSet(available, ident) ==>
            ParseGroup(group, available, camelize).value == ParseGroup(prefix, available, camelize).value)
  {
  }

  /** Each provided property carries the merged metadata of the last group
    * entry that names it. */
  lemma {:induction false} ParseGroupValue(group: Dict<Key, Val>, available: Val, camelize: string -> string, i: nat)
    requires ParseGroup(group, available, camelize).Ok?
    requires i < |group| && IsSet(available, EntryIdent(group[i], camelize))
    requires forall j :: i < j < |group| ==> EntryIdent(group[j], camelize) != EntryIdent(group[i], camelize)
    ensures var ident := EntryIdent(group[i], camelize);
      var m := MergedMeta(EntryMeta(group[i]), At(available, ident));
      m.Ok? && Get(ParseGroup(group, available, camelize).value, StrKey(ident)) == Some(m.value)
    decreases |group|
  {
    var n := |group|;
    var prefix := group[..n - 1];
    ParseGroupStep(group, available, camelize);
    if i < n - 1 {
      assert prefix[i] == group[i];
      forall j | i < j < |prefix| ensures EntryIdent(prefix[j], camelize) != EntryIdent(prefix[i], camelize) {
        assert prefix[j] == group[j];
      }
      ParseGroupValue(prefix, available, camelize, i);
    }
  }

  /** A parse fails exactly when a provided property's group metadata is an
    * array and the structure's is not. */
  lemma {:induction false} ParseGroupFails(group: Dict<Key, Val>, available: Val, camelize: string -> string)
    ensures ParseGroup(group, available, camelize).Err? <==>
      exists i :: 0 <= i < |group| && IsSet(available, EntryIdent(group[i], camelize)) &&
        MergedMeta(EntryMeta(group[i]), At(available, EntryIdent(group[i], camelize))).Err?
    decreases |group|
  {
    if group != [] {
      var n := |group|;
      var prefix := group[..n - 1];
      ParseGroupFails(prefix, available, camelize);
      if (exists i :: 0 <= i < |prefix| && IsSet(available, EntryIdent(prefix[i], camelize)) &&
            MergedMeta(EntryMeta(prefix[i]), At(available, EntryIdent(prefix[i], camelize))).Err?) {
        var i :| 0 <= i < |prefix| && IsSet(available, EntryIdent(prefix[i], camelize)) &&
          MergedMeta(EntryMeta(prefix[i]), At(available, EntryIdent(prefix[i], camelize))).Err?;
        assert group[i] == prefix[i];
      }
      if (exists i :: 0 <= i < |group| && IsSet(available, EntryIdent(group[i], camelize)) &&
            MergedMeta(EntryMeta(group[i]), At(available, EntryIdent(group[i], camelize))).Err?) {
        var i :| 0 <= i < |group| && IsSet(available, EntryIdent(group[i], camelize)) &&
          MergedMeta(EntryMeta(group[i]), At(available, EntryIdent(group[i], camelize))).Err?;
        if i < n - 1 {
          assert group[i] == prefix[i];
        }
      }
    }
  }

  /** The parsed form properties: the parsed group, or every structure
    * property when nothing survives and `auto_form_group` is exactly true. */
  function ParsedProperties(group: Dict<Key, Val>, available: Val, auto: Val, camelize: string -> string): Result<Val>
  {
    match ParseGroup(group, available, camelize)
    case Err(e) => Err(e)
    case Ok(parsed) => Ok(if parsed == [] && auto == Bool(true) then available else Arr(parsed))
  }

  /** Falling back on all structure properties happens only for an empty
    * parse under a literal `true`; a truthy non-boolean does not enable it. */
  lemma ParsedPropertiesFallback(group: Dict<Key, Val>, available: Val, auto: Val, camelize: string -> string)
    requires ParseGroup(group, available, camelize).Ok?
    ensures ParsedProperties(group, available, auto, camelize).Ok?
    ensures AvailableIdents(group, available, camelize) != [] ==>
      ParsedProperties(group, available, auto, camelize) == Ok(Arr(ParseGroup(group, available, camelize).value))
    ensures AvailableIdents(group, available, camelize) == [] ==>
      ParsedProperties(group, available, auto, camelize) == Ok(if auto == Bool(true) then available else Arr([]))
  {
    ParseGroupKeys(group, available, camelize);
    var xs := AvailableIdents(group, available, camelize);
    var parsed := ParseGroup(group, available, camelize).value;
    if xs != [] {
      assert xs[0] in Str.Dedup(xs);
      assert Keys(parsed) != [];
    } else {
      assert Keys(parsed) == [];
    }
  }

  /** The loop of `parsedFormProperties()` over the group entries. */
  method ParseFormProperties(group: Dict<Key, Val>, available: Val, camelize: string -> string)
    returns (r: Result<Dict<Key, Val>>)
    ensures r == ParseGroup(group, available, camelize)
  {
    var parsed: Dict<Key, Val> := [];
    var i := 0;
    while i < |group|
      invariant 0 <= i <= |group|
      invariant ParseGroup(group[..i], available, camelize) == Ok(parsed)
    {
      assert group[..i + 1][..i] == group[..i];
      var ident := EntryIdent(group[i], camelize);
      if IsSet(available, ident) {
        var m := MergedMeta(EntryMeta(group[i]), At(available, ident));
        if m.Err? {
          ParseGroupStops(group, available, camelize, i + 1);
          return Err(m.error);
        }
        parsed := Put(parsed, StrKey(ident), m.value);
      }
      i := i + 1;
    }
    assert group[..i] == group;
    r := Ok(parsed);
  }

  /** Once a prefix of the group fails, the whole parse fails with it. */
  lemma {:induction false} ParseGroupStops(group: Dict<Key, Val>, available: Val, camelize: string -> string, n: nat)
    requires n <= |group| && ParseGroup(group[..n], available, camelize).Err?
    ensures ParseGroup(group, available, camelize) == ParseGroup(group[..n], available, camelize)
    decreases |group| - n
  {
    if n < |group| {
      var longer := group[..n + 1];
      assert longer[..n] == group[..n];
      assert group[..n + 1][..n] == group[..n];
      ParseGroupStops(group, available, camelize, n + 1);
    } else {
      assert group[..n] == group;
    }
  }

  // ---------------------------------------------------------------------
  // Structure form group: the nested inputs

  /** A nested input: its property ident, its input name, its metadata and
    * whether the form keeps it hidden. */
  datatype FormInput = FormInput(ident: string, inputName: string, metadata: Val, hidden: bool)

  /** The `%1$s[%2$s]` name of a nested input. */
  function InputName(storeName: string, ident: string): (r: string)
    ensures |r| == |storeName| + |ident| + 2
    ensures r[..|storeName|] == storeName && r[|storeName|] == '[' && r[|r| - 1] == ']'
    ensures r[|storeName| + 1..|r| - 1] == ident
  {
    storeName + "[" + ident + "]"
  }

  /** The name the store gives its inputs: its truthy `input_name`, else
    * its ident. */
  function StoreName(inputName: Val, storeIdent: string): (r: string)
    ensures Truthy(inputName) ==> r == ScalarString(inputName)
    ensures !Truthy(inputName) ==> r == storeIdent
  {
    if Truthy(inputName) then ScalarString(inputName) else storeIdent
  }

  /** The metadata of one parsed property after it is tagged with its ident
    * and passed through the entry's and the object's metadata filters. */
  function FilteredMeta(e: (Key, Val), storeIdent: string,
                        entryFilter: (Val, string) -> Val, objFilter: (Val, string) -> Val): Val
  {
    var ident := KeyString(e.0);
    var tagged := if e.1.Arr? then With(e.1, "ident", Str(ident)) else e.1;
    objFilter(entryFilter(tagged, ident), storeIdent + "." + ident)
  }

  /** One step of `formProperties()`: a property filtered to `false` or
    * inactive is skipped, one that is not an array is an error, any other
    * becomes an input named after the store. */
  function StructInput(e: (Key, Val), storeName: string, storeIdent: string,
                       entryFilter: (Val, string) -> Val, objFilter: (Val, string) -> Val,
                       hidden: Val -> bool): (r: Result<Option<FormInput>>)
    ensures var m := FilteredMeta(e, storeIdent, entryFilter, objFilter);
      (r.Err? <==> m != Bool(false) && !m.Arr?) &&
      (r.Ok? && r.value.Some? <==> m.Arr? && At(m, "active") != Bool(false))
    ensures r.Ok? && r.value.Some? ==>
      var input := r.value.value;
      input.ident == KeyString(e.0) && input.inputName == InputName(storeName, input.ident) &&
      At(input.metadata, "input_name") == Str(input.inputName) && At(input.metadata, "active") != Bool(false)
  {
    var ident := KeyString(e.0);
    var m := FilteredMeta(e, storeIdent, entryFilter, objFilter);
    if m == Bool(false) then Ok(None)
    else if !m.Arr? then Err(UnexpectedValue)
    else if At(m, "active") == Bool(false) then Ok(None)
    else
      var name := InputName(storeName, ident);
      var tagged := With(m, "input_name", Str(name));
      Ok(Some(FormInput(ident, name, tagged, hidden(tagged))))
  }

  /** The loop of `formProperties()` over any entries: each entry gives an
    * input, nothing, or an exception that ends the loop. */
  function Collect<T, U>(xs: seq<T>, f: T -> Result<Option<U>>): (r: Result<seq<U>>)
    ensures r.Ok? ==> |r.value| <= |xs|
  {
    if xs == [] then Ok([])
    else
      match f(xs[0])
      case Err(e) => Err(e)
      case Ok(first) =>
        match Collect(xs[1..], f)
        case Err(e) => Err(e)
        case Ok(rest) => Ok((if first.Some? then [first.value] else []) + rest)
  }

  /** The loop fails exactly when some entry fails. */
  lemma {:induction false} CollectFail<T, U>(xs: seq<T>, f: T -> Result<Option<U>>)
    ensures Collect(xs, f).Err? <==> exists i :: 0 <= i < |xs| && f(xs[i]).Err?
  {
    if xs != [] {
      CollectFail(xs[1..], f);
      if exists i :: 0 <= i < |xs| && f(xs[i]).Err? {
        var i :| 0 <= i < |xs| && f(xs[i]).Err?;
        if i > 0 {
          assert xs[1..][i - 1] == xs[i];
        }
      }
      if exists i :: 0 <= i < |xs[1..]| && f(xs[1..][i]).Err? {
        var i :| 0 <= i < |xs[1..]| && f(xs[1..][i]).Err?;
        assert xs[1..][i] == xs[i + 1];
      }
    }
  }

  /** On a concatenation without errors, the inputs are those of the parts,
    * concatenated. */
  lemma {:induction false} CollectConcat<T, U>(a: seq<T>, b: seq<T>, f: T -> Result<Option<U>>)
    requires Collect(a + b, f).Ok?
    ensures Collect(a, f).Ok? && Collect(b, f).Ok?
    ensures Collect(a + b, f).value == Collect(a, f).value + Collect(b, f).value
  {
    if a == [] {
      assert a + b == b;
    } else {
      assert (a + b)[1..] == a[1..] + b;
      assert (a + b)[0] == a[0];
      CollectConcat(a[1..], b, f);
      var head := if f(a[0]).value.Some? then [f(a[0]).value.value] else [];
      assert head + (Collect(a[1..], f).value + Collect(b, f).value)
        == (head + Collect(a[1..], f).value) + Collect(b, f).value;
    }
  }

  /** Every input of a successful loop is the input of one of the entries. */
  lemma {:induction false} CollectFrom<T, U>(xs: seq<T>, f: T -> Result<Option<U>>, k: nat)
    requires Collect(xs, f).Ok? && k < |Collect(xs, f).value|
    ensures exists j :: 0 <= j < |xs| && f(xs[j]) == Ok(Some(Collect(xs, f).value[k]))
  {
    var first := f(xs[0]).value;
    var rest := Collect(xs[1..], f).value;
    if first.Some? && k == 0 {
      assert f(xs[0]) == Ok(Some(Collect(xs, f).value[k]));
    } else {
      var k' := if first.Some? then k - 1 else k;
      assert Collect(xs, f).value[k] == rest[k'];
      CollectFrom(xs[1..], f, k');
      var j :| 0 <= j < |xs[1..]| && f(xs[1..][j]) == Ok(Some(rest[k']));
      assert xs[1..][j] == xs[j + 1];
    }
  }

  /** The input of one parsed property, as `formProperties()` builds it. */
  function InputOf(storeName: string, storeIdent: string,
                   entryFilter: (Val, string) -> Val, objFilter: (Val, string) -> Val,
                   hidden: Val -> bool): ((Key, Val)) -> Result<Option<FormInput>>
  {
    e => StructInput(e, storeName, storeIdent, entryFilter, objFilter, hidden)
  }

  /** `formProperties()` over the parsed properties, in their order. */
  function StructInputs(props: Dict<Key, Val>, storeName: string, storeIdent: string,
                        entryFilter: (Val, string) -> Val, objFilter: (Val, string) -> Val,
                        hidden: Val -> bool): (r: Result<seq<FormInput>>)
    ensures r.Ok? ==> |r.value| <= |props|
  {
    Collect(props, InputOf(storeName, storeIdent, entryFilter, objFilter, hidden))
  }

  /** The inputs fail exactly when some property is filtered to neither
    * `false` nor an array. */
  lemma StructInputsFail(props: Dict<Key, Val>, storeName: string, storeIdent: string,
                         entryFilter: (Val, string) -> Val, objFilter: (Val, string) -> Val,
                         hidden: Val -> bool)
    ensures StructInputs(props, storeName, storeIdent, entryFilter, objFilter, hidden).Err? <==>
      exists i :: 0 <= i < |props| && StructInput(props[i], storeName, storeIdent, entryFilter, objFilter, hidden).Err?
  {
    var f := InputOf(storeName, storeIdent, entryFilter, objFilter, hidden);
    CollectFail(props, f);
    assert forall i :: 0 <= i < |props| ==> f(props[i]) == StructInput(props[i], storeName, storeIdent, entryFilter, objFilter, hidden);
  }

  /** The inputs keep the parsed order: on a concatenation without errors
    * they are the concatenation of the parts' inputs. */
  lemma StructInputsConcat(a: Dict<Key, Val>, b: Dict<Key, Val>, storeName: string, storeIdent: string,
                           entryFilter: (Val, string) -> Val, objFilter: (Val, string) -> Val,
                           hidden: Val -> bool)
    requires StructInputs(a + b, storeName, storeIdent, entryFilter, objFilter, hidden).Ok?
    ensures StructInputs(a, storeName, storeIdent, entryFilter, objFilter, hidden).Ok?
    ensures StructInputs(b, storeName, storeIdent, entryFilter, objFilter, hidden).Ok?
    ensures StructInputs(a + b, storeName, storeIdent, entryFilter, objFilter, hidden).value ==
      StructInputs(a, storeName, storeIdent, entryFilter, objFilter, hidden).value +
      StructInputs(b, storeName, storeIdent, entryFilter, objFilter, hidden).value
  {
    CollectConcat(a, b, InputOf(storeName, storeIdent, entryFilter, objFilter, hidden));
  }

  lemma StructInputsNamed(props: Dict<Key, Val>, storeName: string, storeIdent: string,
                          entryFilter: (Val, string) -> Val, objFilter: (Val, string) -> Val,
                          hidden: Val -> bool, k: nat)
    requires StructInputs(props, storeName, storeIdent, entryFilter, objFilter, hidden).Ok?
    requires k < |StructInputs(props, storeName, storeIdent, entryFilter, objFilter, hidden).value|
    ensures var input := StructInputs(props, storeName, storeIdent, entryFilter, objFilter, hidden).value[k];
      (exists j :: 0 <= j < |props| && input.ident == KeyString(props[j].0)) &&
      input.inputName == InputName(storeName, input.ident) &&
      At(input.metadata, "input_name") == Str(input.inputName) && At(input.metadata, "active") != Bool(false)
  {
    var f := InputOf(storeName, storeIdent, entryFilter, objFilter, hidden);
    CollectFrom(props, f, k);
    var input := Collect(props, f).value[k];
    var j :| 0 <= j < |props| && f(props[j]) == Ok(Some(input));
    assert StructInput(props[j], storeName, storeIdent, entryFilter, objFilter, hidden) == Ok(Some(input));
  }

  /** `supportsLanguageSwitch()`: whether some group property's metadata,
    * merged with the structure's when the structure provides the property,
    * has a truthy `l10n`; the search stops at the first such property. */
  function SupportsLanguageSwitch(group: Dict<Key, Val>, available: Val, camelize: string -> string): (r: Result<bool>)
  {
    if group == [] then Ok(false)
    else
      match LanguageMeta(group[0], available, camelize)
      case Err(e) => Err(e)
      case Ok(m) => if Truthy(At(m, "l10n")) then Ok(true) else SupportsLanguageSwitch(group[1..], available, camelize)
  }

  /** The metadata `supportsLanguageSwitch` inspects for one group entry. */
  function LanguageMeta(e: (Key, Val), available: Val, camelize: string -> string): Result<Val>
  {
    var ident := EntryIdent(e, camelize);
    if IsSet(available, ident) then MergedMeta(EntryMeta(e), At(available, ident)) else Ok(EntryMeta(e))
  }

  /** When no metadata merge fails, the group supports the language switch
    * exactly when one of its properties is localised. */
  lemma {:induction false} SupportsLanguageSwitchIff(group: Dict<Key, Val>, available: Val, camelize: string -> string)
    requires forall i :: 0 <= i < |group| ==> LanguageMeta(group[i], available, camelize).Ok?
    ensures SupportsLanguageSwitch(group, available, camelize) ==
      Ok(exists i :: 0 <= i < |group| && Truthy(At(LanguageMeta(group[i], available, camelize).value, "l10n")))
  {
    if group != [] {
      forall i | 0 <= i < |group[1..]| ensures LanguageMeta(group[1..][i], available, camelize).Ok? {
        assert group[1..][i] == group[i + 1];
      }
      SupportsLanguageSwitchIff(group[1..], available, camelize);
      if exists i :: 0 <= i < |group[1..]| && Truthy(At(LanguageMeta(group[1..][i], available, camelize).value, "l10n")) {
        var i :| 0 <= i < |group[1..]| && Truthy(At(LanguageMeta(group[1..][i], available, camelize).value, "l10n"));
        assert group[1..][i] == group[i + 1];
      }
      if exists i :: 0 <= i < |group| && Truthy(At(LanguageMeta(group[i], available, camelize).value, "l10n")) {
        var i :| 0 <= i < |group| && Truthy(At(LanguageMeta(group[i], available, camelize).value, "l10n"));
        if i > 0 {
          assert group[1..][i - 1] == group[i];
        }
      }
    }
  }

  // ---------------------------------------------------------------------
  // Structure form group: the widget

  /** The widget data `finalizeStructure` applies: the resolved group with
    * the raw widget data overlaid. */
  function GroupData(group: Dict<Key, Val>, rawData: Option<Dict<Key, Val>>): Dict<Key, Val>
  {
    if rawData.Some? then Replace(group, rawData.value) else group
  }

  /** Explicit widget data wins over the resolved group; keys it lacks come
    * from the group. */
  lemma GroupDataRawWins(group: Dict<Key, Val>, raw: Dict<Key, Val>, k: Key)
    requires UniqueKeys(raw)
    ensures Get(GroupData(group, Some(raw)), k) == if k in Keys(raw) then Get(raw, k) else Get(group, k)
  {
    ReplaceGet(group, raw, k);
  }

  /** What `setData` does to the raw data and the group properties. */
  datatype Applied = Applied(rawData: Option<Dict<Key, Val>>, groupProperties: Dict<Key, Val>, err: Option<Exception>)

  function ApplyData(rawData: Option<Dict<Key, Val>>, groupProperties: Dict<Key, Val>, data: Dict<Key, Val>): (a: Applied)
    ensures a.rawData == if rawData.None? then Some(data) else rawData
    ensures a.rawData.Some?
  {
    var raw := if rawData.None? then Some(data) else rawData;
    match GroupPropertiesAfter(groupProperties, Arr(data))
    case Ok(g) => Applied(raw, g, None)
    case Err(e) => Applied(raw, groupProperties, Some(e))
  }

  /** Whether `finalizeStructure` applies the group it found: only a group
    * that is there and truthy, so an empty array is skipped. */
  predicate Applies(found: Option<Val>)
  {
    found.Some? && Truthy(found.value)
  }

  /** `finalizeStructure()` when it is due: the group found in the structure,
    * if any and not empty, overlaid with the raw data and applied as widget
    * data. */
  function Finalize(structure: Val, rawData: Option<Dict<Key, Val>>, groupProperties: Dict<Key, Val>): (a: Applied)
    ensures FindStructureFormGroup(structure).Err? ==>
      a == Applied(rawData, groupProperties, Some(FindStructureFormGroup(structure).error))
    ensures FindStructureFormGroup(structure).Ok? && !Applies(FindStructureFormGroup(structure).value) ==>
      a == Applied(rawData, groupProperties, None)
    ensures FindStructureFormGroup(structure).Ok? && Applies(FindStructureFormGroup(structure).value) ==>
      var g := FindStructureFormGroup(structure).value.value.entries;
      var p := At(Arr(GroupData(g, rawData)), "properties");
      a.rawData == (if rawData.None? then Some(g) else rawData) &&
      (p == Null ==> a.groupProperties == groupProperties && a.err == None) &&
      (p.Arr? ==> a.groupProperties == p.entries && a.err == None) &&
      (p != Null && !p.Arr? ==> a.groupProperties == groupProperties && a.err == Some(TypeError))
  {
    match FindStructureFormGroup(structure)
    case Err(e) => Applied(rawData, groupProperties, Some(e))
    case Ok(found) =>
      if !Applies(found) then Applied(rawData, groupProperties, None)
      else ApplyData(rawData, groupProperties, GroupData(found.value.entries, rawData))
  }

  /** An empty `form_group` is falsy: finalising leaves the raw data and the
    * group properties as they were. */
  lemma EmptyGroupSkipped(groupProperties: Dict<Key, Val>)
    ensures Finalize(Record([("admin", Record([("form_group", Arr([]))]))]), None, groupProperties) ==
      Applied(None, groupProperties, None)
  {
    var s := Record([("admin", Record([("form_group", Arr([]))]))]);
    assert At(s, "admin") == Record([("form_group", Arr([]))]);
    assert At(At(s, "admin"), "form_group") == Arr([]);
  }

  /** Once a non-empty group is applied, the raw data is recorded; and when
    * the raw data names array `properties`, those are the group properties
    * whatever group the structure resolves to. */
  lemma FinalizeRawDataWins(structure: Val, raw: Dict<Key, Val>, groupProperties: Dict<Key, Val>)
    requires UniqueKeys(raw)
    requires Get(raw, StrKey("properties")).Some? && Get(raw, StrKey("properties")).value.Arr?
    requires FindStructureFormGroup(structure).Ok? && Applies(FindStructureFormGroup(structure).value)
    ensures Finalize(structure, Some(raw), groupProperties) ==
      Applied(Some(raw), Get(raw, StrKey("properties")).value.entries, None)
  {
    var g := FindStructureFormGroup(structure).value.value;
    var data := GroupData(g.entries, Some(raw));
    GroupDataRawWins(g.entries, raw, StrKey("properties"));
    LookupGet(data, "properties");
  }

  /** The layout installed when none is set: one column, looped once per
    * structure property. */
  function DefaultLayout(count: nat): (r: Val)
    ensures r.Arr? && Truthy(r)
  {
    Record([("structure", List([Record([("columns", List([Int(1)])), ("loop", Int(count))])]))])
  }

  /** The entries of an array value; nothing for any other value. */
  function Entries(v: Val): Dict<Key, Val>
  {
    if v.Arr? then v.entries else []
  }

  class StructureGroup {
    var groupProperties: Dict<Key, Val>
    var rawData: Option<Dict<Key, Val>>
    var isStructureFinalized: bool
    var parsedFormProperties: Option<Val>
    var autoFormGroup: Option<Val>
    var layout: Val
    var structId: string
    /** The structure metadata of the storage property. */
    var structure: Val
    const display: string
    const camelize: string -> string

    /** Properties are parsed only after the structure is finalised. */
    predicate Valid()
      reads this
    {
      parsedFormProperties.Some? ==> isStructureFinalized
    }

    constructor (structure: Val, display: string, camelize: string -> string)
      ensures this.structure == structure && this.display == display && this.camelize == camelize
      ensures groupProperties == [] && rawData == None && !isStructureFinalized
      ensures parsedFormProperties == None && autoFormGroup == None && layout == Null && structId == ""
      ensures Valid()
    {
      this.structure := structure;
      this.display := display;
      this.camelize := camelize;
      groupProperties := [];
      rawData := None;
      isStructureFinalized := false;
      parsedFormProperties := None;
      autoFormGroup := None;
      layout := Null;
      structId := "";
    }

    /** `structId()`: a falsy ident is replaced by a fresh unique one. */
    method StructId(unique: string) returns (id: string)
      modifies this`structId
      ensures id == structId
      ensures Truthy(Str(old(structId))) ==> structId == old(structId)
      ensures !Truthy(Str(old(structId))) ==> structId == unique
    {
      if !Truthy(Str(structId)) {
        structId := unique;
      }
      id := structId;
    }

    /** `showHeader()` / `showFooter()`: the seamless display hides both,
      * any other display defers to the generic group. */
    function ShowFrame(parentShows: bool): (r: bool)
      reads this
      ensures display == SeamlessDisplay ==> !r
      ensures display != SeamlessDisplay ==> r == parentShows
    {
      display != SeamlessDisplay && parentShows
    }

    /** `setData()`: the first data set is kept as the raw data. */
    method SetData(data: Dict<Key, Val>) returns (err: Option<Exception>)
      modifies this`rawData, this`groupProperties
      ensures Applied(rawData, groupProperties, err) == ApplyData(old(rawData), old(groupProperties), data)
    {
      if rawData.None? {
        rawData := Some(data);
      }
      var p := At(Arr(data), "properties");
      err := None;
      if p != Null {
        if p.Arr? {
          groupProperties := p.entries;
        } else {
          err := Some(TypeError);
        }
      }
    }

    /** `autoFormGroup()`: resolved from the structure once, then kept. */
    method AutoFormGroup() returns (auto: Val)
      modifies this`autoFormGroup
      ensures autoFormGroup == Some(auto)
      ensures old(autoFormGroup).Some? ==> auto == old(autoFormGroup).value
      ensures old(autoFormGroup).None? ==> auto == AutoFormGroupOf(structure)
    {
      if autoFormGroup.None? {
        autoFormGroup := Some(AutoFormGroupOf(structure));
      }
      auto := autoFormGroup.value;
    }

    /** `finalizeStructure($reload)`: runs once, or again on reload. */
    method FinalizeStructure(reload: bool) returns (err: Option<Exception>)
      requires Valid()
      modifies this`isStructureFinalized, this`rawData, this`groupProperties
      ensures Valid()
      ensures !reload && old(isStructureFinalized) ==>
        err == None && rawData == old(rawData) && groupProperties == old(groupProperties) && isStructureFinalized
      ensures reload || !old(isStructureFinalized) ==>
        isStructureFinalized && Applied(rawData, groupProperties, err) == Finalize(structure, old(rawData), old(groupProperties))
    {
      err := None;
      if reload || !isStructureFinalized {
        isStructureFinalized := true;
        var found := FindStructureFormGroup(structure);
        if found.Err? {
          err := Some(found.error);
        } else if Applies(found.value) {
          err := SetData(GroupData(found.value.value.entries, rawData));
        }
      }
    }

    /** `parsedFormProperties()`: computed once, after finalising the
      * structure, and then returned as memoised. */
    method ParsedFormProperties() returns (r: Result<Val>)
      requires Valid()
      modifies this`isStructureFinalized, this`rawData, this`groupProperties, this`parsedFormProperties, this`autoFormGroup
      ensures Valid() && isStructureFinalized
      ensures old(parsedFormProperties).Some? ==>
        r == Ok(old(parsedFormProperties).value) && parsedFormProperties == old(parsedFormProperties) &&
        rawData == old(rawData) && groupProperties == old(groupProperties) && autoFormGroup == old(autoFormGroup)
      ensures old(parsedFormProperties).None? ==>
        var fin := if old(isStructureFinalized) then Applied(old(rawData), old(groupProperties), None)
                   else Finalize(structure, old(rawData), old(groupProperties));
        var auto := if old(autoFormGroup).Some? then old(autoFormGroup).value else AutoFormGroupOf(structure);
        rawData == fin.rawData && groupProperties == fin.groupProperties &&
        (fin.err.Some? ==> r == Err(fin.err.value)) &&
        (fin.err.None? ==> r == ParsedProperties(groupProperties, StructProperties(structure), auto, camelize)) &&
        parsedFormProperties == (if r.Ok? then Some(r.value) else None) &&
        (autoFormGroup == old(autoFormGroup) || autoFormGroup == Some(auto))
    {
      if parsedFormProperties.Some? {
        return Ok(parsedFormProperties.value);
      }
      var err := FinalizeStructure(false);
      if err.Some? {
        return Err(err.value);
      }
      var available := StructProperties(structure);
      var parsed := ParseFormProperties(groupProperties, available, camelize);
      if parsed.Err? {
        return Err(parsed.error);
      }
      var result := Arr(parsed.value);
      if parsed.value == [] {
        var auto := AutoFormGroup();
        if auto == Bool(true) {
          result := available;
        }
      }
      parsedFormProperties := Some(result);
      r := Ok(result);
    }

    /** `formProperties()`: installs a one-column layout when none is set,
      * then turns the parsed properties into inputs named after the store. */
    method FormProperties(storeInputName: Val, storeIdent: string,
                          entryFilter: (Val, string) -> Val, objFilter: (Val, string) -> Val, hidden: Val -> bool)
      returns (r: Result<seq<FormInput>>)
      requires Valid()
      modifies this`isStructureFinalized, this`rawData, this`groupProperties, this`parsedFormProperties, this`autoFormGroup, this`layout
      ensures Valid()
      ensures r.Ok? ==> (parsedFormProperties.Some? &&
        r == StructInputs(Entries(parsedFormProperties.value), StoreName(storeInputName, storeIdent), storeIdent,
                          entryFilter, objFilter, hidden))
      ensures parsedFormProperties.Some? ==>
        layout == if Truthy(old(layout)) then old(layout) else DefaultLayout(|Entries(parsedFormProperties.value)|)
      ensures parsedFormProperties.None? ==> r.Err? && layout == old(layout)
      ensures old(parsedFormProperties).Some? ==> parsedFormProperties == old(parsedFormProperties)
      ensures isStructureFinalized
      ensures old(isStructureFinalized) ==> rawData == old(rawData) && groupProperties == old(groupProperties)
      ensures !old(isStructureFinalized) ==>
        var fin := Finalize(structure, old(rawData), old(groupProperties));
        rawData == fin.rawData && groupProperties == fin.groupProperties && (fin.err.Some? ==> r == Err(fin.err.value))
      ensures old(autoFormGroup).Some? ==> autoFormGroup == old(autoFormGroup)
      ensures autoFormGroup == old(autoFormGroup) || autoFormGroup == Some(AutoFormGroupOf(structure))
      ensures old(parsedFormProperties).None? ==>
        var fin := if old(isStructureFinalized) then Applied(old(rawData), old(groupProperties), None)
                   else Finalize(structure, old(rawData), old(groupProperties));
        var auto := if old(autoFormGroup).Some? then old(autoFormGroup).value else AutoFormGroupOf(structure);
        var parsed := ParsedProperties(fin.groupProperties, StructProperties(structure), auto, camelize);
        fin.err.None? ==>
          (parsed.Err? ==> r == Err(parsed.error) && parsedFormProperties.None?) &&
          (parsed.Ok? ==> parsedFormProperties == Some(parsed.value))
    {
      var err := FinalizeStructure(false);
      if err.Some? {
        return Err(err.value);
      }
      var parsed := ParsedFormProperties();
      if parsed.Err? {
        return Err(parsed.error);
      }
      var props := Entries(parsed.value);
      if !Truthy(layout) {
        layout := DefaultLayout(|props|);
      }
      r := StructInputs(props, StoreName(storeInputName, storeIdent), storeIdent, entryFilter, objFilter, hidden);
    }
  }
}
