/**
 * The object table of the admin: which properties become columns and in
 * what order, the CSS classes of a cell, and the list and row actions,
 * their defaults, their URLs and their priority order.
 */
module TableWidget {
  import opened Php
  import Str

  // ---------------------------------------------------------------------
  // Columns

  /** `array_flip($list)`: each ident keyed to the index of its last
    * occurrence, in the order of first occurrence. */
  function Flip(list: seq<string>): (d: Dict<string, Val>)
    ensures UniqueKeys(d)
    ensures Keys(d) == Str.Dedup(list)
    decreases |list|
  {
    if list == [] then []
    else
      var n := |list|;
      var prev := Flip(list[..n - 1]);
      FlipStep(prev, list);
      Put(prev, list[n - 1], Int(n - 1))
  }

  /** Putting the last ident after the flip of the others keeps the keys
    * distinct and in `array_unique` order. */
  lemma FlipStep(prev: Dict<string, Val>, list: seq<string>)
    requires list != [] && UniqueKeys(prev) && Keys(prev) == Str.Dedup(list[..|list| - 1])
    ensures UniqueKeys(Put(prev, list[|list| - 1], Int(|list| - 1)))
    ensures Keys(Put(prev, list[|list| - 1], Int(|list| - 1))) == Str.Dedup(list)
  {
    PutKeys(prev, list[|list| - 1], Int(|list| - 1));
  }

  /** The ident positions `array_flip` gives: list indexes holding the
    * ident. */
  lemma {:induction false} FlipIndexes(list: seq<string>, k: string)
    requires k in list
    ensures Get(Flip(list), k).Some? && Get(Flip(list), k).value.Int?
    ensures 0 <= Get(Flip(list), k).value.n < |list| && list[Get(Flip(list), k).value.n] == k
    decreases |list|
  {
    var n := |list|;
    if list[n - 1] != k {
      assert k in list[..n - 1];
      FlipIndexes(list[..n - 1], k);
    }
  }

  /** An ident listed more than once keeps the index of its last
    * occurrence, since each later write of the key overwrites it. */
  lemma {:induction false} FlipLast(list: seq<string>, k: string)
    requires k in list
    ensures Get(Flip(list), k).Some? && Get(Flip(list), k).value.Int?
    ensures forall j :: 0 <= j < |list| && Get(Flip(list), k).value.n < j ==> list[j] != k
    decreases |list|
  {
    FlipIndexes(list, k);
    var n := |list|;
    if list[n - 1] != k {
      var prev := list[..n - 1];
      assert k in prev;
      FlipLast(prev, k);
      FlipKeepsOthers(list, k);
      var i := Get(Flip(prev), k).value.n;
      forall j | i < j < n
        ensures list[j] != k
      {
        if j < n - 1 {
          assert list[j] == prev[j];
        }
      }
    }
  }

  lemma FlipKeepsOthers(list: seq<string>, k: string)
    requires list != [] && list[|list| - 1] != k
    ensures Get(Flip(list), k) == Get(Flip(list[..|list| - 1]), k)
  {
  }

  /** The columns a list shows: with no list every metadata property, in
    * metadata order; otherwise exactly the listed idents, in list order,
    * each carrying its metadata (`array_replace` then
    * `array_intersect_key` against the flipped list). */
  function ListedProperties(props: Dict<string, Val>, list: seq<string>): Dict<string, Val>
  {
    if list == [] then props
    else Restrict(Replace(Flip(list), props), k => k in list)
  }

  lemma {:induction false} RestrictSplit(d: Dict<string, Val>, n: nat, keep: string -> bool)
    requires n <= |d|
    requires forall i :: 0 <= i < n ==> keep(d[i].0)
    requires forall i :: n <= i < |d| ==> !keep(d[i].0)
    ensures Restrict(d, keep) == d[..n]
  {
    if d != [] {
      RestrictSplit(d[1..], if n == 0 then 0 else n - 1, keep);
      if n > 0 {
        assert d[..n] == [d[0]] + d[1..][..n - 1];
      }
    }
  }

  /** A non-empty list selects exactly its idents, first occurrence first;
    * a listed ident known to the metadata keeps its metadata, one the
    * metadata lacks keeps its list index. */
  lemma ListedPropertiesSelect(props: Dict<string, Val>, list: seq<string>)
    requires UniqueKeys(props) && list != []
    ensures Keys(ListedProperties(props, list)) == Str.Dedup(list)
    ensures forall k :: k in list && k in Keys(props) ==> Get(ListedProperties(props, list), k) == Get(props, k)
    ensures forall k :: k in list && k !in Keys(props) ==>
      Get(ListedProperties(props, list), k).Some? && Get(ListedProperties(props, list), k).value.Int?
    ensures forall k :: k !in list ==> Get(ListedProperties(props, list), k) == None
  {
    var f := Flip(list);
    var r := Replace(f, props);
    var n := |f|;
    ReplaceKeys(f, props);
    forall k ensures Get(r, k) == if k in Keys(props) then Get(props, k) else Get(f, k) {
      ReplaceGet(f, props, k);
    }
    forall i | 0 <= i < n ensures r[i].0 in list {
      KeysAt(r, i);
      KeysAt(f, i);
      assert Keys(r)[..n][i] == Keys(f)[i];
      assert Keys(f)[i] in Str.Dedup(list);
    }
    forall i | n <= i < |r| ensures r[i].0 !in list {
      if r[i].0 in list {
        assert r[i].0 in Keys(f);
        var j :| 0 <= j < |Keys(f)| && Keys(f)[j] == r[i].0;
        KeysAt(r, j);
        KeysAt(r, i);
        assert Keys(r)[..n][j] == Keys(f)[j];
        UniqueAt(r, j, i);
      }
    }
    RestrictSplit(r, n, k => k in list);
    KeysPrefix(r, n);
    forall k | k in list && k !in Keys(props)
      ensures Get(ListedProperties(props, list), k).Some? && Get(ListedProperties(props, list), k).value.Int?
    {
      FlipIndexes(list, k);
    }
  }

  /** The list of property idents configured for a collection: the string
    * values of `admin.lists.<ident>.properties`, if set. */
  function ConfiguredList(lists: Val, collectionIdent: string, fallbackIdent: string): (r: Option<seq<string>>)
    ensures r.Some? ==> Truthy(Str(collectionIdent)) || Truthy(Str(fallbackIdent))
  {
    var ident := if Truthy(Str(collectionIdent)) then collectionIdent else fallbackIdent;
    if Truthy(Str(ident)) && IsSet(At(lists, ident), "properties") then
      Some(StringValues(At(At(lists, ident), "properties")))
    else None
  }

  /** The string values of an array (what `array_flip` can key by). */
  function StringValues(v: Val): seq<string>
  {
    if v.Arr? then StringsOf(Values(v.entries)) else []
  }

  function StringsOf(vs: seq<Val>): (r: seq<string>)
    ensures forall s :: s in r <==> Str(s) in vs
  {
    if vs == [] then []
    else (if vs[0].Str? then [vs[0].s] else []) + StringsOf(vs[1..])
  }

  /** What `properties()` holds: the idents given to the widget before it
    * resolved them, or the resolved columns. */
  datatype PropertySelection = Idents(idents: seq<string>) | Resolved(columns: Dict<string, Val>)

  // ---------------------------------------------------------------------
  // Cells

  /** `viewOptions($ident)`: `properties_options.<ident>.view_options`,
    * or an empty array. */
  function ViewOptions(propertiesOptions: Val, ident: string): (r: Val)
    ensures !Truthy(Str(ident)) ==> r == Arr([])
    ensures Truthy(Str(ident)) && IsSet(At(propertiesOptions, ident), "view_options") ==>
      r == At(At(propertiesOptions, ident), "view_options")
  {
    if !Truthy(Str(ident)) then Arr([])
    else if IsSet(At(propertiesOptions, ident), "view_options") then At(At(propertiesOptions, ident), "view_options")
    else Arr([])
  }

  /** `propertiesOptions()`: the collection's `properties_options`, or an
    * empty array when the collection config is empty or lacks them. */
  function PropertiesOptions(collectionConfig: Val): Val
  {
    if !Truthy(collectionConfig) || !IsSet(collectionConfig, "properties_options") then Arr([])
    else At(collectionConfig, "properties_options")
  }

  /** `parsePropertyCellClasses`: `property-<ident>` followed by the view
    * options' classes (every value of an array, or the one scalar). */
  function CellClassList(ident: string, viewOptions: Val): (r: seq<string>)
    ensures r != [] && r[0] == "property-" + ident
  {
    var own := ["property-" + ident];
    if !IsSet(viewOptions, "classes") then own
    else
      var extra := At(viewOptions, "classes");
      if extra.Arr? then own + ScalarStrings(Values(extra.entries))
      else own + [ScalarString(extra)]
  }

  function ScalarStrings(vs: seq<Val>): (r: seq<string>)
    ensures |r| == |vs|
  {
    if vs == [] then [] else [ScalarString(vs[0])] + ScalarStrings(vs[1..])
  }

  /** The `classes` entry of a cell or column: `implode(' ', array_unique(...))`,
    * dropped when empty. */
  function CellClasses(ident: string, viewOptions: Val): Option<string>
  {
    var joined := Str.Join(Str.Dedup(CellClassList(ident, viewOptions)), " ");
    if Truthy(Str(joined)) then Some(joined) else None
  }

  lemma {:induction false} JoinStartsWith(parts: seq<string>, sep: string)
    requires parts != []
    ensures Str.StartsWith(Str.Join(parts, sep), parts[0])
  {
    if |parts| > 1 {
      assert Str.Join(parts, sep) == parts[0] + (sep + Str.Join(parts[1..], sep));
    }
  }

  /** A cell always keeps its classes, and they begin with `property-<ident>`:
    * the `unset` of an empty class string never fires. */
  lemma CellClassesKept(ident: string, viewOptions: Val)
    ensures CellClasses(ident, viewOptions).Some?
    ensures Str.StartsWith(CellClasses(ident, viewOptions).value, "property-" + ident)
  {
    var list := CellClassList(ident, viewOptions);
    var unique := Str.Dedup(list);
    JoinStartsWith(unique, " ");
    var joined := Str.Join(unique, " ");
    assert joined[..|"property-" + ident|] == "property-" + ident;
    assert joined[0] == 'p';
  }

  /** The columns of the collection: label and classes of each selected property. */
  datatype Column = Column(ident: string, heading: string, classes: Option<string>)

  /** The column of one selected property; its label is supplied by `labelOf`. */
  function ColumnOf(ident: string, metadata: Val, propertiesOptions: Val, labelOf: (string, Val) -> string): (c: Column)
    ensures c.ident == ident && c.classes.Some?
    ensures Str.StartsWith(c.classes.value, "property-" + ident)
  {
    CellClassesKept(ident, ViewOptions(propertiesOptions, ident));
    Column(ident, Str.Trim(labelOf(ident, metadata)), CellClasses(ident, ViewOptions(propertiesOptions, ident)))
  }

  /** `collectionProperties()`: one column per selected property, in order,
    * each with its classes. */
  method CollectionColumns(columns: Dict<string, Val>, propertiesOptions: Val, labelOf: (string, Val) -> string)
    returns (cols: seq<Column>)
    ensures |cols| == |columns|
    ensures forall i :: 0 <= i < |cols| ==> cols[i] == ColumnOf(columns[i].0, columns[i].1, propertiesOptions, labelOf)
  {
    cols := [];
    var i := 0;
    while i < |columns|
      invariant 0 <= i <= |columns|
      invariant ColumnsUpTo(cols, columns, propertiesOptions, labelOf, i)
    {
      var col := ColumnOf(columns[i].0, columns[i].1, propertiesOptions, labelOf);
      ColumnsUpToStep(cols, columns, propertiesOptions, labelOf, i, col);
      cols := cols + [col];
      i := i + 1;
    }
  }

  /** The first `i` columns are in place. */
  ghost predicate ColumnsUpTo(cols: seq<Column>, columns: Dict<string, Val>, propertiesOptions: Val,
                              labelOf: (string, Val) -> string, i: nat)
    requires i <= |columns|
  {
    |cols| == i && forall j :: 0 <= j < i ==> cols[j] == ColumnOf(columns[j].0, columns[j].1, propertiesOptions, labelOf)
  }

  lemma ColumnsUpToStep(cols: seq<Column>, columns: Dict<string, Val>, propertiesOptions: Val,
                        labelOf: (string, Val) -> string, i: nat, col: Column)
    requires i < |columns| && ColumnsUpTo(cols, columns, propertiesOptions, labelOf, i)
    requires col == ColumnOf(columns[i].0, columns[i].1, propertiesOptions, labelOf)
    ensures ColumnsUpTo(cols + [col], columns, propertiesOptions, labelOf, i + 1)
  {
  }

  // ---------------------------------------------------------------------
  // Actions

  /** An action structure: its fields by string key. The order of the keys
    * inside one action plays no part in the widget and is not modelled. */
  type Action = Fields

  /** The priority `sortActionsByPriority` compares: an integer, or an
    * integer numeric string by its value, as the loose `<` takes it; unset
    * is 0. */
  function Priority(action: Action): int
  {
    match Field(action, "priority")
    case Int(n) => n
    case Str(s) => if IntegerString(s).Some? then IntegerString(s).value else 0
    case _ => 0
  }

  /** A priority given as the string of an integer weighs as that integer:
    * `"10"` sorts after `5`. */
  lemma PriorityNumericString(action: Action, n: int)
    requires Field(action, "priority") == Str(ScalarString(Int(n)))
    ensures Priority(action) == n
  {
    IntegerStringRoundTrip(n);
  }

  /** `sortActionsByPriority`: -1 when the first has the lower priority,
    * 1 otherwise (never 0). */
  function ComparePriority(a: Action, b: Action): (c: int)
    ensures c == -1 || c == 1
    ensures c < 0 <==> Priority(a) < Priority(b)
  {
    if Priority(a) < Priority(b) then -1 else 1
  }

  predicate SortedByPriority(s: Dict<Key, Action>)
  {
    forall i, j :: 0 <= i < j < |s| ==> Priority(s[i].1) <= Priority(s[j].1)
  }

  /** Inserts an entry before the first one the comparator ranks above it. */
  function InsertByPriority(e: (Key, Action), sorted: Dict<Key, Action>): (r: Dict<Key, Action>)
    ensures multiset(r) == multiset(sorted) + multiset{e}
  {
    if sorted == [] || ComparePriority(e.1, sorted[0].1) < 0 then [e] + sorted
    else
      assert sorted == [sorted[0]] + sorted[1..];
      [sorted[0]] + InsertByPriority(e, sorted[1..])
  }

  /** No entry of `s` has a priority below `p`. */
  predicate AtLeast(s: Dict<Key, Action>, p: int)
  {
    forall i :: 0 <= i < |s| ==> p <= Priority(s[i].1)
  }

  lemma {:induction false} InsertAtLeast(e: (Key, Action), sorted: Dict<Key, Action>, p: int)
    requires AtLeast(sorted, p) && p <= Priority(e.1)
    ensures AtLeast(InsertByPriority(e, sorted), p)
  {
    if sorted != [] && ComparePriority(e.1, sorted[0].1) >= 0 {
      InsertAtLeast(e, sorted[1..], p);
    }
  }

  lemma {:induction false} InsertKeepsSorted(e: (Key, Action), sorted: Dict<Key, Action>)
    requires SortedByPriority(sorted)
    ensures SortedByPriority(InsertByPriority(e, sorted))
  {
    if sorted != [] && ComparePriority(e.1, sorted[0].1) >= 0 {
      var rest := sorted[1..];
      InsertKeepsSorted(e, rest);
      assert AtLeast(rest, Priority(sorted[0].1));
      InsertAtLeast(e, rest, Priority(sorted[0].1));
      var inserted := InsertByPriority(e, rest);
      var r := [sorted[0]] + inserted;
      forall i, j | 0 <= i < j < |r| ensures Priority(r[i].1) <= Priority(r[j].1) {
        assert r[j] == inserted[j - 1];
        if i > 0 {
          assert r[i] == inserted[i - 1];
        }
      }
    }
  }

  /** `uasort($actions, sortActionsByPriority)`: keys stay with their
    * actions, lower priorities come first. */
  method SortByPriority(actions: Dict<Key, Action>) returns (sorted: Dict<Key, Action>)
    ensures SortedByPriority(sorted)
    ensures multiset(sorted) == multiset(actions)
  {
    sorted := [];
    var i := 0;
    while i < |actions|
      invariant 0 <= i <= |actions|
      invariant SortedByPriority(sorted)
      invariant multiset(sorted) == multiset(actions[..i])
    {
      InsertKeepsSorted(actions[i], sorted);
      sorted := InsertByPriority(actions[i], sorted);
      assert actions[..i + 1] == actions[..i] + [actions[i]];
      i := i + 1;
    }
    assert actions[..i] == actions;
  }

  /** The value an action's `ident` takes: its own when set, else its key. */
  function ActionIdent(action: Action, key: Key): Val
  {
    if Has(action, "ident") then Field(action, "ident") else KeyVal(key)
  }

  /** An action `parseActionItem` can label: a translatable label, or a
    * truthy ident to derive one from. Any other action meets the
    * `continue` at TableWidget.php:733, which is meant to skip it. */
  predicate Labelled(action: Action, key: Key, translatable: Val -> bool)
  {
    (Has(action, "label") && translatable(Field(action, "label"))) || Truthy(ActionIdent(action, key))
  }

  /** The label derived from an ident: dots and underscores become spaces,
    * then every word is capitalised. */
  function LabelFromIdent(ident: Val): string
  {
    Str.UcWords(Str.ReplaceChars(ScalarString(ident), {'.', '_'}, ' '))
  }

  /** What `parseActionItem` leaves under key `k` of an action, field by
    * field: `active` defaults to true and is cleared for a `create` action
    * when objects cannot be created; `ident` defaults to the key; `label`
    * and `url` become translations when translatable, otherwise a label
    * derived from the ident and `#`; `is_button` and `isButton` mirror
    * each other, `is_button` first; every other key is kept. */
  function ParsedField(action: Action, key: Key, creatable: bool, translatable: Val -> bool, k: string): Val
  {
    if k == "active" then
      if Has(action, "ident") && Field(action, "ident") == Str("create") && !creatable then Bool(false)
      else if Has(action, "active") then Field(action, "active")
      else Bool(true)
    else if k == "ident" then ActionIdent(action, key)
    else if k == "label" then
      if Has(action, "label") && translatable(Field(action, "label")) then Translation(Field(action, "label"))
      else Str(LabelFromIdent(ActionIdent(action, key)))
    else if k == "url" then
      if Has(action, "url") && translatable(Field(action, "url")) then Translation(Field(action, "url"))
      else Str("#")
    else if k == "isButton" && Has(action, "is_button") then Bool(Truthy(Field(action, "is_button")))
    else if k == "is_button" && !Has(action, "is_button") && Has(action, "isButton") then
      Bool(Truthy(Field(action, "isButton")))
    else Field(action, k)
  }

  /** `r` is the action `parseActionItem` makes of `action`. */
  ghost predicate IsParsedAction(action: Action, key: Key, creatable: bool, translatable: Val -> bool, r: Action)
  {
    forall k :: Field(r, k) == ParsedField(action, key, creatable, translatable, k)
  }

  /** The first two blocks of `parseActionItem` took `a` to `r`: `active`
    * defaults to true, a `create` action is switched off when objects
    * cannot be created, and an action without ident takes its key. */
  ghost predicate ActiveIdentResolved(a: Action, key: Key, creatable: bool, r: Action)
  {
    Field(r, "ident") == ActionIdent(a, key) &&
    Field(r, "active") ==
      (if Has(a, "ident") && Field(a, "ident") == Str("create") && !creatable then Bool(false)
       else if Has(a, "active") then Field(a, "active")
       else Bool(true)) &&
    forall k :: k != "active" && k != "ident" ==> Field(r, k) == Field(a, k)
  }

  method ResolveActiveIdent(a: Action, key: Key, creatable: bool) returns (r: Action)
    ensures ActiveIdentResolved(a, key, creatable, r)
  {
    r := a;
    if !Has(r, "active") {
      r := r["active" := Bool(true)];
    }
    if Has(r, "ident") {
      if Field(r, "ident") == Str("create") && !creatable {
        r := r["active" := Bool(false)];
      }
    } else {
      r := r["ident" := KeyVal(key)];
    }
  }

  /** The next two blocks took `a` to `r`: a translatable label or URL
    * becomes a translation; otherwise the label is derived from the ident
    * and the URL is `#`. */
  ghost predicate LabelUrlResolved(a: Action, translatable: Val -> bool, r: Action)
  {
    Field(r, "label") ==
      (if Has(a, "label") && translatable(Field(a, "label")) then Translation(Field(a, "label"))
       else Str(LabelFromIdent(Field(a, "ident")))) &&
    Field(r, "url") ==
      (if Has(a, "url") && translatable(Field(a, "url")) then Translation(Field(a, "url")) else Str("#")) &&
    forall k :: k != "label" && k != "url" ==> Field(r, k) == Field(a, k)
  }

  method ResolveLabelUrl(a: Action, translatable: Val -> bool) returns (r: Action)
    ensures LabelUrlResolved(a, translatable, r)
  {
    r := a;
    if Has(r, "label") && translatable(Field(r, "label")) {
      r := r["label" := Translation(Field(r, "label"))];
    } else {
      // the caller's `Labelled` rules out the branch that would `continue`
      r := r["label" := Str(LabelFromIdent(Field(r, "ident")))];
    }
    if Has(r, "url") && translatable(Field(r, "url")) {
      r := r["url" := Translation(Field(r, "url"))];
    } else {
      r := r["url" := Str("#")];
    }
  }

  /** The last block took `a` to `r`: `is_button` and `isButton` mirror each
    * other, `is_button` first. */
  ghost predicate ButtonFlagsMirrored(a: Action, r: Action)
  {
    Field(r, "isButton") ==
      (if Has(a, "is_button") then Bool(Truthy(Field(a, "is_button"))) else Field(a, "isButton")) &&
    Field(r, "is_button") ==
      (if !Has(a, "is_button") && Has(a, "isButton") then Bool(Truthy(Field(a, "isButton")))
       else Field(a, "is_button")) &&
    forall k :: k != "is_button" && k != "isButton" ==> Field(r, k) == Field(a, k)
  }

  method MirrorButtonFlag(a: Action) returns (r: Action)
    ensures ButtonFlagsMirrored(a, r)
  {
    r := a;
    if Has(r, "is_button") {
      r := r["isButton" := Bool(Truthy(Field(r, "is_button")))];
    } else if Has(r, "isButton") {
      r := r["is_button" := Bool(Truthy(Field(r, "isButton")))];
    }
  }

  /** The three blocks compose to the field-by-field description. */
  lemma BlocksParseAction(action: Action, key: Key, creatable: bool, translatable: Val -> bool,
                          identified: Action, resolved: Action, r: Action)
    requires ActiveIdentResolved(action, key, creatable, identified)
    requires LabelUrlResolved(identified, translatable, resolved)
    requires ButtonFlagsMirrored(resolved, r)
    ensures IsParsedAction(action, key, creatable, translatable, r)
  {
    BlocksActiveIdent(action, key, creatable, translatable, identified, resolved, r);
    BlocksLabel(action, key, creatable, translatable, identified, resolved, r);
    BlocksUrl(action, key, creatable, translatable, identified, resolved, r);
    BlocksIsButton(action, key, creatable, translatable, identified, resolved, r);
    BlocksSnakeButton(action, key, creatable, translatable, identified, resolved, r);
    forall k
      ensures Field(r, k) == ParsedField(action, key, creatable, translatable, k)
    {
      if k != "active" && k != "ident" && k != "label" && k != "url" && k != "is_button" && k != "isButton" {
        BlocksOtherField(action, key, creatable, translatable, identified, resolved, r, k);
      }
    }
  }

  /** The first block settles `active` and `ident`; the later ones keep them. */
  lemma BlocksActiveIdent(action: Action, key: Key, creatable: bool, translatable: Val -> bool,
                          identified: Action, resolved: Action, r: Action)
    requires ActiveIdentResolved(action, key, creatable, identified)
    requires LabelUrlResolved(identified, translatable, resolved)
    requires ButtonFlagsMirrored(resolved, r)
    ensures Field(r, "active") == ParsedField(action, key, creatable, translatable, "active")
    ensures Field(r, "ident") == ParsedField(action, key, creatable, translatable, "ident")
  {
    assert Field(r, "active") == Field(resolved, "active") == Field(identified, "active");
    assert Field(r, "ident") == Field(resolved, "ident") == Field(identified, "ident");
  }

  /** The second block settles `label` from the resolved ident. */
  lemma BlocksLabel(action: Action, key: Key, creatable: bool, translatable: Val -> bool,
                  identified: Action, resolved: Action, r: Action)
    requires ActiveIdentResolved(action, key, creatable, identified)
    requires LabelUrlResolved(identified, translatable, resolved)
    requires ButtonFlagsMirrored(resolved, r)
    ensures Field(r, "label") == ParsedField(action, key, creatable, translatable, "label")
  {
    assert Field(r, "label") == Field(resolved, "label");
    assert Field(identified, "label") == Field(action, "label");
  }

  /** The second block settles `url`. */
  lemma BlocksUrl(action: Action, key: Key, creatable: bool, translatable: Val -> bool,
                  identified: Action, resolved: Action, r: Action)
    requires ActiveIdentResolved(action, key, creatable, identified)
    requires LabelUrlResolved(identified, translatable, resolved)
    requires ButtonFlagsMirrored(resolved, r)
    ensures Field(r, "url") == ParsedField(action, key, creatable, translatable, "url")
  {
    assert Field(r, "url") == Field(resolved, "url");
    assert Field(identified, "url") == Field(action, "url");
  }

  /** The last block sets `isButton` from the original `is_button`. */
  lemma BlocksIsButton(action: Action, key: Key, creatable: bool, translatable: Val -> bool,
                  identified: Action, resolved: Action, r: Action)
    requires ActiveIdentResolved(action, key, creatable, identified)
    requires LabelUrlResolved(identified, translatable, resolved)
    requires ButtonFlagsMirrored(resolved, r)
    ensures Field(r, "isButton") == ParsedField(action, key, creatable, translatable, "isButton")
  {
    PassesFirstBlocks(action, key, creatable, translatable, identified, resolved, "is_button");
    PassesFirstBlocks(action, key, creatable, translatable, identified, resolved, "isButton");
  }

  /** The last block sets `is_button` from the original `isButton` when it
    * is missing. */
  lemma BlocksSnakeButton(action: Action, key: Key, creatable: bool, translatable: Val -> bool,
                  identified: Action, resolved: Action, r: Action)
    requires ActiveIdentResolved(action, key, creatable, identified)
    requires LabelUrlResolved(identified, translatable, resolved)
    requires ButtonFlagsMirrored(resolved, r)
    ensures Field(r, "is_button") == ParsedField(action, key, creatable, translatable, "is_button")
  {
    PassesFirstBlocks(action, key, creatable, translatable, identified, resolved, "is_button");
    PassesFirstBlocks(action, key, creatable, translatable, identified, resolved, "isButton");
  }

  /** A field other than the four the first two blocks settle passes
    * through them unchanged. */
  lemma PassesFirstBlocks(action: Action, key: Key, creatable: bool, translatable: Val -> bool,
                          identified: Action, resolved: Action, k: string)
    requires ActiveIdentResolved(action, key, creatable, identified)
    requires LabelUrlResolved(identified, translatable, resolved)
    requires k != "active" && k != "ident" && k != "label" && k != "url"
    ensures Field(resolved, k) == Field(action, k)
  {
    assert Field(resolved, k) == Field(identified, k);
  }

  /** Every other field passes through all three blocks unchanged. */
  lemma BlocksOtherField(action: Action, key: Key, creatable: bool, translatable: Val -> bool,
                         identified: Action, resolved: Action, r: Action, k: string)
    requires ActiveIdentResolved(action, key, creatable, identified)
    requires LabelUrlResolved(identified, translatable, resolved)
    requires ButtonFlagsMirrored(resolved, r)
    requires k != "active" && k != "ident" && k != "label" && k != "url" && k != "is_button" && k != "isButton"
    ensures Field(r, k) == ParsedField(action, key, creatable, translatable, k)
  {
    assert Field(r, k) == Field(resolved, k) == Field(identified, k) == Field(action, k);
  }

  /** `parseActionItem($action, $ident)` on an action array, completed block
    * by block. (Called on an ident, it returns the ident.) */
  method ParseActionItem(action: Action, key: Key, creatable: bool, translatable: Val -> bool) returns (r: Action)
    requires Labelled(action, key, translatable)
    ensures IsParsedAction(action, key, creatable, translatable, r)
  {
    var identified := ResolveActiveIdent(action, key, creatable);
    var resolved := ResolveLabelUrl(identified, translatable);
    r := MirrorButtonFlag(resolved);
    BlocksParseAction(action, key, creatable, translatable, identified, resolved, r);
  }

  /** What becomes of one action handed to `parseActionItem`. */
  datatype ParseOutcome = Parsed(action: Action) | Skipped | CompileFailure

  /** `parseActionItem` as written, under PHP 7 and later: the `continue`
    * at TableWidget.php:733 has no enclosing loop or switch, which is a
    * compile-time error, so the widget's file never loads and no action is
    * parsed, whatever the action. */
  function ParseActionItemAsWritten(action: Action, key: Key, translatable: Val -> bool): (r: ParseOutcome)
    ensures r == CompileFailure
  {
    CompileFailure
  }

  /** `parseActionItem` as evidently intended: an action with neither a
    * translatable label nor a truthy ident is skipped, as the `continue`
    * would skip it in the loops that call the method; any other action is
    * parsed. */
  method ParseActionItemIntended(action: Action, key: Key, creatable: bool, translatable: Val -> bool)
    returns (r: ParseOutcome)
    ensures r.Skipped? <==> !Labelled(action, key, translatable)
    ensures r.Parsed? ==> IsParsedAction(action, key, creatable, translatable, r.action)
    ensures !r.CompileFailure?
  {
    if !Labelled(action, key, translatable) {
      return Skipped;
    }
    var parsed := ParseActionItem(action, key, creatable, translatable);
    r := Parsed(parsed);
  }

  /** The default `edit` action, which the intended code parses, is not
    * parsed as written. */
  lemma EditActionNotParsedAsWritten(objType: string, translatable: Val -> bool)
    ensures var edit := DefaultObjectActions(objType)[0];
      Labelled(edit.1, edit.0, translatable) &&
      ParseActionItemAsWritten(edit.1, edit.0, translatable) == CompileFailure
  {
    var edit := DefaultObjectActions(objType)[0];
    assert Has(edit.1, "ident");
  }

  /** `parseActionUrl` after rendering: a non-empty URL without a scheme
    * that does not start with `/`, `#` or `?` is prefixed with the admin URL. */
  function PrefixAdminUrl(url: string, adminUrl: string): string
  {
    if Truthy(Str(url)) && ':' !in url && url[0] !in {'/', '#', '?'} then adminUrl + url else url
  }

  /** The URL is either kept or prefixed, and prefixed exactly when it is
    * relative. */
  lemma PrefixAdminUrlCases(url: string, adminUrl: string)
    ensures PrefixAdminUrl(url, adminUrl) == url || PrefixAdminUrl(url, adminUrl) == adminUrl + url
    ensures PrefixAdminUrl(url, adminUrl) == adminUrl + url && adminUrl != "" <==>
      adminUrl != "" && url != "" && url != "0" && ':' !in url && url[0] !in {'/', '#', '?'}
  {
  }

  /** With an absolute admin URL (one holding a scheme, or rooted at `/`),
    * resolving a resolved URL changes nothing. */
  lemma {:induction false} PrefixAdminUrlIdempotent(url: string, adminUrl: string)
    requires ':' in adminUrl || (adminUrl != "" && adminUrl[0] == '/')
    ensures PrefixAdminUrl(PrefixAdminUrl(url, adminUrl), adminUrl) == PrefixAdminUrl(url, adminUrl)
  {
    var once := PrefixAdminUrl(url, adminUrl);
    if once == adminUrl + url && once != url {
      if ':' in adminUrl {
        var i :| 0 <= i < |adminUrl| && adminUrl[i] == ':';
        assert once[i] == ':';
      } else {
        assert once[0] == '/';
      }
    }
  }

  /** `parseActionUrl($url, ...)`: a translated URL is first reduced to its
    * fallback, and rendering is done by `render`. */
  function ParseActionUrl(url: Val, adminUrl: string, render: Val -> string): string
  {
    PrefixAdminUrl(render(url), adminUrl)
  }

  /** What `createListActions` leaves under key `k` of a list action: the
    * parsed action with its URL resolved and a button type, `info` for a
    * `create` action and `default` for the others, unless one is set. */
  function ListField(action: Action, key: Key, creatable: bool, translatable: Val -> bool,
                     adminUrl: string, render: Val -> string, k: string): Val
  {
    if k == "url" then Str(ParseActionUrl(ParsedField(action, key, creatable, translatable, "url"), adminUrl, render))
    else if k == "button_type" && !Has(action, "button_type") then
      Str(if ActionIdent(action, key) == Str("create") then "info" else "default")
    else ParsedField(action, key, creatable, translatable, k)
  }

  ghost predicate IsListAction(action: Action, key: Key, creatable: bool, translatable: Val -> bool,
                               adminUrl: string, render: Val -> string, r: Action)
  {
    forall k :: Field(r, k) == ListField(action, key, creatable, translatable, adminUrl, render, k)
  }

  /** The body of the `createListActions` loop for one action. */
  method ListAction(key: Key, action: Action, creatable: bool, translatable: Val -> bool,
                    adminUrl: string, render: Val -> string) returns (r: Action)
    requires Labelled(action, key, translatable)
    ensures IsListAction(action, key, creatable, translatable, adminUrl, render, r)
  {
    r := ParseActionItem(action, key, creatable, translatable);
    ghost var parsed := r;
    if Has(r, "url") {
      r := r["url" := Str(ParseActionUrl(Field(r, "url"), adminUrl, render))];
    }
    if !Has(r, "button_type") {
      r := r["button_type" := Str(if Field(r, "ident") == Str("create") then "info" else "default")];
    }
    ParsedListFields(action, key, creatable, translatable, adminUrl, render, parsed);
    ListActionFields(action, key, creatable, translatable, adminUrl, render, parsed, r);
  }

  /** The list values of `url` and `button_type`, read off the parsed
    * action. */
  lemma ParsedListFields(action: Action, key: Key, creatable: bool, translatable: Val -> bool,
                         adminUrl: string, render: Val -> string, parsed: Action)
    requires IsParsedAction(action, key, creatable, translatable, parsed)
    ensures Has(parsed, "url")
    ensures ListField(action, key, creatable, translatable, adminUrl, render, "url")
      == Str(ParseActionUrl(Field(parsed, "url"), adminUrl, render))
    ensures ListField(action, key, creatable, translatable, adminUrl, render, "button_type")
      == if Has(parsed, "button_type") then Field(parsed, "button_type")
         else Str(if Field(parsed, "ident") == Str("create") then "info" else "default")
  {
    assert Field(parsed, "url") == ParsedField(action, key, creatable, translatable, "url");
    assert Field(parsed, "ident") == ParsedField(action, key, creatable, translatable, "ident");
    assert Field(parsed, "button_type") == ParsedField(action, key, creatable, translatable, "button_type");
  }

  /** An action that agrees with the parsed one except on `url` and
    * `button_type`, and has the list values of those two, is the list
    * action. */
  lemma ListActionFields(action: Action, key: Key, creatable: bool, translatable: Val -> bool,
                         adminUrl: string, render: Val -> string, parsed: Action, r: Action)
    requires IsParsedAction(action, key, creatable, translatable, parsed)
    requires forall k :: k != "url" && k != "button_type" ==> Field(r, k) == Field(parsed, k)
    requires Field(r, "url") == ListField(action, key, creatable, translatable, adminUrl, render, "url")
    requires Field(r, "button_type") == ListField(action, key, creatable, translatable, adminUrl, render, "button_type")
    ensures IsListAction(action, key, creatable, translatable, adminUrl, render, r)
  {
    forall k
      ensures Field(r, k) == ListField(action, key, creatable, translatable, adminUrl, render, k)
    {
      if k != "url" && k != "button_type" {
        assert Field(r, k) == Field(parsed, k);
      }
    }
  }

  /** Every list action has a resolved URL and a button type, keeps the
    * ident it was given or its key, and is inactive exactly when it says
    * so or it is a `create` action and objects cannot be created. */
  lemma ListActionShape(action: Action, key: Key, creatable: bool, translatable: Val -> bool,
                        adminUrl: string, render: Val -> string, r: Action)
    requires IsListAction(action, key, creatable, translatable, adminUrl, render, r)
    ensures Has(r, "button_type") && Field(r, "url").Str?
    ensures Field(r, "ident") == ActionIdent(action, key)
    ensures Field(r, "active") == Bool(false) <==>
      (Has(action, "ident") && Field(action, "ident") == Str("create") && !creatable) ||
      Field(action, "active") == Bool(false)
  {
    assert Field(r, "button_type") == ListField(action, key, creatable, translatable, adminUrl, render, "button_type");
    assert Field(r, "url") == ListField(action, key, creatable, translatable, adminUrl, render, "url");
    assert Field(r, "ident") == ListField(action, key, creatable, translatable, adminUrl, render, "ident");
    ListActionActive(action, key, creatable, translatable, adminUrl, render, r);
  }

  /** A list action is inactive exactly when it says so or it is a `create`
    * action and objects cannot be created. */
  lemma ListActionActive(action: Action, key: Key, creatable: bool, translatable: Val -> bool,
                         adminUrl: string, render: Val -> string, r: Action)
    requires IsListAction(action, key, creatable, translatable, adminUrl, render, r)
    ensures Field(r, "active") == Bool(false) <==>
      (Has(action, "ident") && Field(action, "ident") == Str("create") && !creatable) ||
      Field(action, "active") == Bool(false)
  {
    assert Field(r, "active") == ListField(action, key, creatable, translatable, adminUrl, render, "active");
  }

  predicate AllLabelled(actions: Dict<Key, Action>, translatable: Val -> bool)
  {
    forall i :: 0 <= i < |actions| ==> Labelled(actions[i].1, actions[i].0, translatable)
  }

  /** The edit action every row starts with. */
  function DefaultObjectActions(objType: string): (r: Dict<Key, Action>)
    ensures |r| == 1 && r[0].0 == IntKey(0)
    ensures Field(r[0].1, "ident") == Str("edit") && Priority(r[0].1) == 1
    ensures Field(r[0].1, "url") == Str(ObjectEditUrl(objType) + "&obj_id={{id}}")
    ensures Field(r[0].1, "label").Translation?
  {
    var names := Arr([(StrKey("fr"), Str("Modifier")), (StrKey("en"), Str("Modify"))]);
    var edit := map[
      "label" := Translation(names),
      "url" := Str(ObjectEditUrl(objType) + "&obj_id={{id}}"),
      "ident" := Str("edit"),
      "priority" := Int(1)];
    [(IntKey(0), edit)]
  }

  /** `objectEditUrl()`. */
  function ObjectEditUrl(objType: string): (r: string)
    ensures Str.StartsWith(r, "object/edit?obj_type=") && r[|"object/edit?obj_type="|..] == objType
  {
    "object/edit?obj_type=" + objType
  }

  /** The URL of the first `create` list action that has one, if any. */
  function CreateActionUrl(actions: Dict<Key, Action>): Option<Val>
  {
    if actions == [] then None
    else if Has(actions[0].1, "ident") && Field(actions[0].1, "ident") == Str("create") && Has(actions[0].1, "url") then
      Some(Field(actions[0].1, "url"))
    else CreateActionUrl(actions[1..])
  }

  /** `parseObjectRow`: the first object action becomes the primary one
    * (`array_shift`), the rest stay in the menu. */
  datatype RowActions = RowActions(objectActions: seq<Action>, primaryObjectAction: Option<Action>, hasObjectActions: bool)

  function ParseObjectRow(actions: seq<Action>): (r: RowActions)
    ensures actions == [] ==> r.primaryObjectAction.None? && r.objectActions == []
    ensures actions != [] ==> r.primaryObjectAction.Some? && [r.primaryObjectAction.value] + r.objectActions == actions
    ensures r.hasObjectActions <==> |actions| >= 2
  {
    if actions == [] then RowActions([], None, false)
    else RowActions(actions[1..], Some(actions[0]), |actions| - 1 > 0)
  }

  class Table {
    var properties: Option<PropertySelection>
    var parsedProperties: bool
    var listActions: Option<Dict<Key, Action>>
    var parsedListActions: bool
    var objectActions: Option<Dict<Key, Action>>
    var parsedObjectActions: bool
    var sortable: bool
    var showTableHeader: bool
    var showTableHead: bool
    var showTableFoot: bool

    /** The column selection is resolved exactly when it has been parsed. */
    predicate Valid()
      reads this
    {
      parsedProperties <==> properties.Some? && properties.value.Resolved?
    }

    /** A widget whose data may have named its properties. */
    constructor (initialProperties: Option<seq<string>>)
      ensures properties == (if initialProperties.Some? then Some(Idents(initialProperties.value)) else None)
      ensures !parsedProperties && listActions.None? && !parsedListActions
      ensures objectActions.None? && !parsedObjectActions
      ensures showTableHeader && showTableHead && !showTableFoot && !sortable
      ensures Valid()
    {
      properties := if initialProperties.Some? then Some(Idents(initialProperties.value)) else None;
      parsedProperties := false;
      listActions := None;
      parsedListActions := false;
      objectActions := None;
      parsedObjectActions := false;
      sortable := false;
      showTableHeader := true;
      showTableHead := true;
      showTableFoot := false;
    }

    /** `properties()`: resolved once, then returned as resolved. */
    method Properties(metaProps: Dict<string, Val>, lists: Val, collectionIdent: string, fallbackIdent: string)
      returns (columns: Dict<string, Val>)
      requires Valid()
      modifies this`properties, this`parsedProperties
      ensures Valid() && parsedProperties && properties == Some(Resolved(columns))
      ensures old(parsedProperties) && old(properties).Some? ==>
        properties == old(properties)
      ensures !(old(parsedProperties) && old(properties).Some?) ==>
        columns == ListedProperties(metaProps,
          match old(properties)
          case Some(Idents(list)) => list
          case _ =>
            match ConfiguredList(lists, collectionIdent, fallbackIdent)
            case Some(list) => list
            case None => [])
    {
      if properties.None? || !parsedProperties {
        parsedProperties := true;
        var list: seq<string> := [];
        if properties.None? {
          var configured := ConfiguredList(lists, collectionIdent, fallbackIdent);
          if configured.Some? {
            list := configured.value;
          }
        } else {
          list := properties.value.idents;
        }
        columns := ListedProperties(metaProps, list);
        properties := Some(Resolved(columns));
      } else {
        columns := properties.value.columns;
      }
    }

    /** `setListActions`: recorded, used only while the list actions have
      * not been built yet. */
    method SetListActions(actions: Dict<Key, Action>)
      modifies this`listActions
      ensures listActions == Some(actions)
    {
      listActions := Some(actions);
    }

    /** `setObjectActions`. */
    method SetObjectActions(actions: Dict<Key, Action>)
      modifies this`objectActions
      ensures objectActions == Some(actions)
    {
      objectActions := Some(actions);
    }

    /** `listActions()` (with `createListActions()`): the configured or set
      * actions, each parsed and given a button type, sorted by priority;
      * built once. */
    method ListActions(configured: Dict<Key, Action>, creatable: bool, translatable: Val -> bool,
                       adminUrl: string, render: Val -> string)
      returns (actions: Dict<Key, Action>)
      requires AllLabelled(Merge([], if listActions.Some? then listActions.value else configured), translatable)
      modifies this`listActions, this`parsedListActions
      ensures parsedListActions && listActions == Some(actions)
      ensures old(parsedListActions) && old(listActions).Some? ==> actions == old(listActions).value
      ensures !(old(parsedListActions) && old(listActions).Some?) ==>
        ListActionsFrom(Merge([], if old(listActions).Some? then old(listActions).value else configured),
          creatable, translatable, adminUrl, render, actions)
    {
      if listActions.None? || !parsedListActions {
        parsedListActions := true;
        var source := Merge([], if listActions.Some? then listActions.value else configured);
        var built := BuildListActions(source, creatable, translatable, adminUrl, render);
        actions := SortByPriority(built);
        PermutationKeepsEntries(built, actions);
        forall e | e in actions
          ensures e.0.IntKey? && 0 <= e.0.n < |source| &&
            IsListAction(source[e.0.n].1, source[e.0.n].0, creatable, translatable, adminUrl, render, e.1)
        {
          var j :| 0 <= j < |built| && built[j] == e;
        }
        forall i | 0 <= i < |source| ensures IntKey(i) in Keys(actions) {
          assert built[i].0 == IntKey(i);
        }
        listActions := Some(actions);
      } else {
        actions := listActions.value;
      }
    }

    /** `objectActions()` (with `createObjectActions()` and `parseActions()`):
      * the edit action followed by the configured or set ones, parsed and
      * sorted once; each call hands out the actions with their URLs
      * resolved against the current row. */
    method ObjectActions(configured: Dict<Key, Action>, objType: string, creatable: bool,
                         translatable: Val -> bool, adminUrl: string, renderRow: Val -> string)
      returns (actions: seq<Action>)
      requires AllLabelled(Merge(DefaultObjectActions(objType),
        if objectActions.Some? then objectActions.value else configured), translatable)
      modifies this`objectActions, this`parsedObjectActions
      ensures parsedObjectActions && objectActions.Some?
      ensures old(parsedObjectActions) && old(objectActions).Some? ==> objectActions == old(objectActions)
      ensures !(old(parsedObjectActions) && old(objectActions).Some?) ==>
        ObjectActionsFrom(Merge(DefaultObjectActions(objType),
          if old(objectActions).Some? then old(objectActions).value else configured),
          creatable, translatable, objectActions.value)
      ensures |actions| == |objectActions.value|
      ensures forall i :: 0 <= i < |actions| ==>
        actions[i] == WithResolvedUrl(objectActions.value[i].1, adminUrl, renderRow)
    {
      if objectActions.None? || !parsedObjectActions {
        parsedObjectActions := true;
        var given := if objectActions.Some? then objectActions.value else configured;
        var sorted := CreateObjectActions(given, objType, creatable, translatable);
        objectActions := Some(sorted);
      }
      actions := ResolveRowUrls(objectActions.value, adminUrl, renderRow);
    }

    /** `setSortable`, `setShowTableHeader`, `setShowTableHead`,
      * `setShowTableFoot`: each flag stores the truth value of its argument. */
    method SetFlags(sortableArg: Option<Val>, header: Option<Val>, head: Option<Val>, foot: Option<Val>)
      modifies this`sortable, this`showTableHeader, this`showTableHead, this`showTableFoot
      ensures sortable == if sortableArg.Some? then Truthy(sortableArg.value) else old(sortable)
      ensures showTableHeader == if header.Some? then Truthy(header.value) else old(showTableHeader)
      ensures showTableHead == if head.Some? then Truthy(head.value) else old(showTableHead)
      ensures showTableFoot == if foot.Some? then Truthy(foot.value) else old(showTableFoot)
    {
      if sortableArg.Some? { sortable := Truthy(sortableArg.value); }
      if header.Some? { showTableHeader := Truthy(header.value); }
      if head.Some? { showTableHead := Truthy(head.value); }
      if foot.Some? { showTableFoot := Truthy(foot.value); }
    }
  }

  /** An action with its URL, when set, resolved for the current row. */
  function WithResolvedUrl(action: Action, adminUrl: string, render: Val -> string): (r: Action)
    ensures Has(action, "url") ==> Field(r, "url") == Str(ParseActionUrl(Field(action, "url"), adminUrl, render))
    ensures !Has(action, "url") ==> r == action
    ensures forall k :: k != "url" ==> Field(r, k) == Field(action, k)
  {
    if Has(action, "url") then action["url" := Str(ParseActionUrl(Field(action, "url"), adminUrl, render))]
    else action
  }

  /** The loop of `objectActions()`: the stored actions in order, each with
    * its URL resolved for the current row. */
  method ResolveRowUrls(stored: Dict<Key, Action>, adminUrl: string, renderRow: Val -> string)
    returns (actions: seq<Action>)
    ensures |actions| == |stored|
    ensures forall i :: 0 <= i < |actions| ==> actions[i] == WithResolvedUrl(stored[i].1, adminUrl, renderRow)
  {
    actions := [];
    var i := 0;
    while i < |stored|
      invariant 0 <= i <= |stored| && |actions| == i
      invariant forall j :: 0 <= j < i ==> actions[j] == WithResolvedUrl(stored[j].1, adminUrl, renderRow)
    {
      actions := actions + [WithResolvedUrl(stored[i].1, adminUrl, renderRow)];
      i := i + 1;
    }
  }

  /** The loop of `createListActions`: every action parsed, its URL
    * resolved and a button type given, appended under the next index. */
  method BuildListActions(source: Dict<Key, Action>, creatable: bool, translatable: Val -> bool,
                          adminUrl: string, render: Val -> string)
    returns (built: Dict<Key, Action>)
    requires AllLabelled(source, translatable)
    ensures |built| == |source|
    ensures forall i :: 0 <= i < |built| ==>
      built[i].0 == IntKey(i) &&
      IsListAction(source[i].1, source[i].0, creatable, translatable, adminUrl, render, built[i].1)
  {
    built := [];
    var i := 0;
    while i < |source|
      invariant 0 <= i <= |source| && |built| == i
      invariant forall j :: 0 <= j < i ==>
        built[j].0 == IntKey(j) &&
        IsListAction(source[j].1, source[j].0, creatable, translatable, adminUrl, render, built[j].1)
    {
      var action := ListAction(source[i].0, source[i].1, creatable, translatable, adminUrl, render);
      built := built + [(IntKey(i), action)];
      i := i + 1;
    }
  }

  /** `parseActions`: each action parsed and written under its key. */
  method ParseActions(source: Dict<Key, Action>, creatable: bool, translatable: Val -> bool)
    returns (parsed: Dict<Key, Action>)
    requires AllLabelled(source, translatable) && UniqueKeys(source)
    ensures |parsed| == |source|
    ensures forall i :: 0 <= i < |parsed| ==>
      parsed[i].0 == source[i].0 && IsParsedAction(source[i].1, source[i].0, creatable, translatable, parsed[i].1)
  {
    parsed := [];
    var i := 0;
    while i < |source|
      invariant 0 <= i <= |source| && |parsed| == i
      invariant Keys(parsed) == Keys(source[..i])
      invariant ParsedUpTo(parsed, source, i, creatable, translatable)
    {
      var action := ParseActionItem(source[i].1, source[i].0, creatable, translatable);
      PutNextKey(parsed, source, i, action);
      ParsedUpToStep(parsed, source, i, creatable, translatable, action);
      parsed := Put(parsed, source[i].0, action);
      i := i + 1;
    }
  }

  /** The first `n` entries of `parsed` are the parsed first `n` actions of
    * `source`, under the same keys. */
  ghost predicate ParsedUpTo(parsed: Dict<Key, Action>, source: Dict<Key, Action>, n: nat,
                             creatable: bool, translatable: Val -> bool)
    requires n <= |parsed| && n <= |source|
  {
    forall j :: 0 <= j < n ==>
      parsed[j].0 == source[j].0 && IsParsedAction(source[j].1, source[j].0, creatable, translatable, parsed[j].1)
  }

  lemma ParsedUpToStep(parsed: Dict<Key, Action>, source: Dict<Key, Action>, i: nat,
                       creatable: bool, translatable: Val -> bool, action: Action)
    requires i == |parsed| && i < |source|
    requires ParsedUpTo(parsed, source, i, creatable, translatable)
    requires IsParsedAction(source[i].1, source[i].0, creatable, translatable, action)
    ensures ParsedUpTo(parsed + [(source[i].0, action)], source, i + 1, creatable, translatable)
  {
    var next := parsed + [(source[i].0, action)];
    forall j | 0 <= j < i + 1
      ensures next[j].0 == source[j].0 && IsParsedAction(source[j].1, source[j].0, creatable, translatable, next[j].1)
    {
      if j < i {
        assert next[j] == parsed[j];
      }
    }
  }

  /** Writing the key of entry `i` of an array with distinct keys, into an
    * array holding the keys before it, appends the entry. */
  lemma PutNextKey<K(!new), V, W>(d: Dict<K, V>, source: Dict<K, W>, i: nat, v: V)
    requires UniqueKeys(source) && i < |source| && Keys(d) == Keys(source[..i])
    ensures Put(d, source[i].0, v) == d + [(source[i].0, v)]
    ensures Keys(d + [(source[i].0, v)]) == Keys(source[..i + 1])
  {
    NewKeyAt(source, i);
    PutNew(d, source[i].0, v);
    KeysConcat(d, [(source[i].0, v)]);
    KeysConcat(source[..i], [source[i]]);
    assert source[..i + 1] == source[..i] + [source[i]];
  }

  /** `createObjectActions()`: the default actions merged with the given
    * ones, parsed, then ordered by priority. */
  method CreateObjectActions(given: Dict<Key, Action>, objType: string, creatable: bool, translatable: Val -> bool)
    returns (sorted: Dict<Key, Action>)
    requires AllLabelled(Merge(DefaultObjectActions(objType), given), translatable)
    ensures ObjectActionsFrom(Merge(DefaultObjectActions(objType), given), creatable, translatable, sorted)
  {
    var source := Merge(DefaultObjectActions(objType), given);
    MergeUnique(DefaultObjectActions(objType), given);
    var parsed := ParseActions(source, creatable, translatable);
    sorted := SortByPriority(parsed);
    PermutationKeepsEntries(parsed, sorted);
    forall e | e in sorted
      ensures e.0 in Keys(source) && IsParsedAction(Get(source, e.0).value, e.0, creatable, translatable, e.1)
    {
      var j :| 0 <= j < |parsed| && parsed[j] == e;
      KeysAt(source, j);
      GetAt(source, j);
    }
    forall k | k in Keys(source) ensures k in Keys(sorted) {
      var j :| 0 <= j < |source| && Keys(source)[j] == k;
      KeysAt(source, j);
      assert parsed[j].0 == k;
    }
  }

  /** A reordering keeps the entries and their keys. */
  lemma PermutationKeepsEntries(before: Dict<Key, Action>, after: Dict<Key, Action>)
    requires multiset(after) == multiset(before)
    ensures |after| == |before|
    ensures forall e :: e in after <==> e in before
    ensures forall i :: 0 <= i < |before| ==> before[i].0 in Keys(after)
  {
    assert |multiset(after)| == |multiset(before)|;
    forall e ensures e in after <==> e in before {
      assert e in after <==> e in multiset(after);
      assert e in before <==> e in multiset(before);
    }
    forall i | 0 <= i < |before| ensures before[i].0 in Keys(after) {
      assert before[i] in multiset(after);
      var j :| 0 <= j < |after| && after[j] == before[i];
      KeysAt(after, j);
    }
  }

  /** `actions` is what `createListActions` makes of `source`: each action
    * exactly once, as a list action keyed by its position, ordered by
    * priority. */
  ghost predicate ListActionsFrom(source: Dict<Key, Action>, creatable: bool, translatable: Val -> bool,
                                  adminUrl: string, render: Val -> string, actions: Dict<Key, Action>)
  {
    SortedByPriority(actions) && |actions| == |source| &&
    (forall i :: 0 <= i < |source| ==> IntKey(i) in Keys(actions)) &&
    (forall e :: e in actions ==>
      e.0.IntKey? && 0 <= e.0.n < |source| &&
      IsListAction(source[e.0.n].1, source[e.0.n].0, creatable, translatable, adminUrl, render, e.1))
  }

  /** `stored` is what `createObjectActions` makes of `source`: each action
    * exactly once, parsed and kept under its key, ordered by priority. */
  ghost predicate ObjectActionsFrom(source: Dict<Key, Action>, creatable: bool, translatable: Val -> bool,
                                    stored: Dict<Key, Action>)
  {
    SortedByPriority(stored) && |stored| == |source| &&
    (forall k :: k in Keys(source) ==> k in Keys(stored)) &&
    (forall e :: e in stored ==>
      e.0 in Keys(source) && IsParsedAction(Get(source, e.0).value, e.0, creatable, translatable, e.1))
  }

  /** `objectCreateUrl()`: the URL of the first `create` list action that
    * has one, rendered; otherwise the edit URL. */
  method ObjectCreateUrl(actions: Dict<Key, Action>, objType: string, render: Val -> string) returns (url: string)
    ensures CreateActionUrl(actions).Some? ==> url == render(CreateActionUrl(actions).value)
    ensures CreateActionUrl(actions).None? ==> url == ObjectEditUrl(objType)
  {
    var i := 0;
    while i < |actions|
      invariant 0 <= i <= |actions|
      invariant CreateActionUrl(actions) == CreateActionUrl(actions[i..])
    {
      var action := actions[i].1;
      if Has(action, "ident") && Field(action, "ident") == Str("create") && Has(action, "url") {
        url := render(Field(action, "url"));
        return;
      }
      assert actions[i..][1..] == actions[i + 1..];
      i := i + 1;
    }
    url := ObjectEditUrl(objType);
  }
}
