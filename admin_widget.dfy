/**
 * The base admin widget: its validated template, type and ident, the lazily
 * assigned widget id, the whitelisted extra data sources and their filters,
 * and the show-actions and show-label rules.
 */
module AdminBase {
  import opened Php
  import Str

  /** The data sources a widget can merge data from. */
  const AcceptedDataSources: seq<string> := ["request", "object", "metadata"]

  /** The rule shared by `setTemplate`, `setType` and `setIdent`: null
    * clears, a string is stored, anything else is rejected. */
  function NullableString(v: Val): (r: Result<Option<string>>)
    ensures r.Ok? <==> v.Null? || v.Str?
    ensures r == Ok(None) <==> v.Null?
    ensures v.Str? ==> r == Ok(Some(v.s))
    ensures r.Err? ==> r.error == InvalidArgument
  {
    match v
    case Null => Ok(None)
    case Str(s) => Ok(Some(s))
    case _ => Err(InvalidArgument)
  }

  /** The data sources and their filters, as `addDataSources` keeps them. */
  datatype Sources = Sources(list: Option<seq<string>>, filters: Dict<Key, Val>)

  /** Every listed source and every filtered source is accepted, and each
    * source has one filter. */
  ghost predicate SourcesValid(s: Sources)
  {
    (s.list.Some? ==> forall i :: 0 <= i < |s.list.value| ==> s.list.value[i] in AcceptedDataSources) &&
    UniqueKeys(s.filters) &&
    forall k :: k in Keys(s.filters) ==> k.StrKey? && k.s in AcceptedDataSources
  }

  /** The ident `addDataSources` registers for one entry of a list: a list
    * position holding a string names that string. */
  function SourceIdent(ident: Key, filter: Val): (r: Option<string>)
    ensures ident.IntKey? && filter.Str? ==> r == Some(filter.s)
    ensures ident.StrKey? ==> r == Some(ident.s)
    ensures ident.IntKey? && !filter.Str? ==> r == None
  {
    if ident.IntKey? && filter.Str? then Some(filter.s)
    else if ident.StrKey? then Some(ident.s)
    else None
  }

  /** The filter stored with that entry, before resolution. */
  function SourceFilter(ident: Key, filter: Val): Val
  {
    if ident.IntKey? && filter.Str? then Null else filter
  }

  /** `addDataSources($ident, $filter)`: rejects an ident that is not a
    * string or not accepted; otherwise appends the ident and records its
    * resolved filter. */
  function AddSource(s: Sources, ident: Key, filter: Val, resolve: Val -> Val): (r: Result<Sources>)
    ensures r.Err? <==> SourceIdent(ident, filter).None? || SourceIdent(ident, filter).value !in AcceptedDataSources
    ensures r.Err? ==> r.error == InvalidArgument
    ensures r.Ok? ==> var src := SourceIdent(ident, filter).value;
      r.value.list == Some((if s.list.Some? then s.list.value else []) + [src]) &&
      Get(r.value.filters, StrKey(src)) == Some(resolve(SourceFilter(ident, filter))) &&
      (forall k :: k != StrKey(src) ==> Get(r.value.filters, k) == Get(s.filters, k))
  {
    var src := SourceIdent(ident, filter);
    if src.None? || src.value !in AcceptedDataSources then Err(InvalidArgument)
    else
      var list := if s.list.Some? then s.list.value else [];
      Ok(Sources(Some(list + [src.value]), Put(s.filters, StrKey(src.value), resolve(SourceFilter(ident, filter)))))
  }

  /** Adding a source keeps the sources valid. */
  lemma AddSourceValid(s: Sources, ident: Key, filter: Val, resolve: Val -> Val)
    requires SourcesValid(s) && AddSource(s, ident, filter, resolve).Ok?
    ensures SourcesValid(AddSource(s, ident, filter, resolve).value)
  {
    var src := SourceIdent(ident, filter).value;
    PutKeys(s.filters, StrKey(src), resolve(SourceFilter(ident, filter)));
  }

  /** The state after the loop of `setDataSources`, and the exception that
    * stopped it. */
  datatype Outcome = Outcome(state: Sources, err: Option<Exception>)

  /** The loop of `setDataSources` over its entries: stops at the first
    * rejected entry, keeping the entries added before it. */
  function AddSources(s: Sources, es: Dict<Key, Val>, resolve: Val -> Val): Outcome
    decreases |es|
  {
    if es == [] then Outcome(s, None)
    else
      match AddSource(s, es[0].0, es[0].1, resolve)
      case Err(e) => Outcome(s, Some(e))
      case Ok(next) => AddSources(next, es[1..], resolve)
  }

  /** An entry of the list names an accepted source. */
  predicate Registrable(e: (Key, Val))
  {
    SourceIdent(e.0, e.1).Some? && SourceIdent(e.0, e.1).value in AcceptedDataSources
  }

  /** The loop succeeds exactly when every entry names an accepted source. */
  lemma {:induction false} AddSourcesSucceeds(s: Sources, es: Dict<Key, Val>, resolve: Val -> Val)
    ensures AddSources(s, es, resolve).err.None? <==> forall i :: 0 <= i < |es| ==> Registrable(es[i])
    decreases |es|
  {
    if es != [] {
      var r := AddSource(s, es[0].0, es[0].1, resolve);
      if r.Ok? {
        AddSourcesSucceeds(r.value, es[1..], resolve);
        if exists i :: 0 <= i < |es[1..]| && !Registrable(es[1..][i]) {
          var i :| 0 <= i < |es[1..]| && !Registrable(es[1..][i]);
          assert es[1..][i] == es[i + 1];
        }
        if exists i :: 0 <= i < |es| && !Registrable(es[i]) {
          var i :| 0 <= i < |es| && !Registrable(es[i]);
          assert es[1..][i - 1] == es[i];
        }
      }
    }
  }

  /** The idents the entries name, one per entry, in order. */
  function Idents(es: Dict<Key, Val>): (r: seq<string>)
    ensures |r| == |es|
    ensures forall i :: 0 <= i < |es| && SourceIdent(es[i].0, es[i].1).Some? ==> r[i] == SourceIdent(es[i].0, es[i].1).value
  {
    if es == [] then []
    else
      var id := SourceIdent(es[0].0, es[0].1);
      [if id.Some? then id.value else ""] + Idents(es[1..])
  }

  /** A source list with idents appended; appending nothing leaves an unset
    * list unset. */
  function Appended(list: Option<seq<string>>, ids: seq<string>): Option<seq<string>>
  {
    if ids == [] then list else Some((if list.Some? then list.value else []) + ids)
  }

  lemma AppendedTwice(list: Option<seq<string>>, id: string, ids: seq<string>)
    ensures Appended(Appended(list, [id]), ids) == Appended(list, [id] + ids)
  {
    if ids != [] {
      var before := if list.Some? then list.value else [];
      assert (before + [id]) + ids == before + ([id] + ids);
    } else {
      assert [id] + ids == [id];
    }
  }

  /** One step of a loop that succeeds: the first entry names a source, which
    * is appended, and the loop goes on from there. */
  lemma AddSourcesStep(s: Sources, es: Dict<Key, Val>, resolve: Val -> Val) returns (next: Sources)
    requires es != [] && AddSources(s, es, resolve).err.None?
    ensures SourceIdent(es[0].0, es[0].1).Some?
    ensures next.list == Appended(s.list, [SourceIdent(es[0].0, es[0].1).value])
    ensures AddSources(next, es[1..], resolve).err.None?
    ensures AddSources(s, es, resolve).state.list == AddSources(next, es[1..], resolve).state.list
  {
    next := AddSource(s, es[0].0, es[0].1, resolve).value;
  }

  /** A successful loop lists the old sources followed by the idents of the
    * entries, in entry order. */
  lemma {:induction false} AddSourcesList(s: Sources, es: Dict<Key, Val>, resolve: Val -> Val)
    requires AddSources(s, es, resolve).err.None?
    ensures AddSources(s, es, resolve).state.list == Appended(s.list, Idents(es))
    decreases |es|
  {
    if es != [] {
      var r := AddSourcesStep(s, es, resolve);
      var id := SourceIdent(es[0].0, es[0].1).value;
      AddSourcesList(r, es[1..], resolve);
      assert Idents(es) == [id] + Idents(es[1..]);
      AppendedTwice(s.list, id, Idents(es[1..]));
    }
  }

  /** The loop keeps the sources valid, whether or not it stops early. */
  lemma {:induction false} AddSourcesValid(s: Sources, es: Dict<Key, Val>, resolve: Val -> Val)
    requires SourcesValid(s)
    ensures SourcesValid(AddSources(s, es, resolve).state)
    decreases |es|
  {
    if es != [] {
      var r := AddSource(s, es[0].0, es[0].1, resolve);
      if r.Ok? {
        AddSourceValid(s, es[0].0, es[0].1, resolve);
        AddSourcesValid(r.value, es[1..], resolve);
      }
    }
  }

  /** The entries `setDataSources` walks: an array's own, any other value as
    * a one-entry list. */
  function SourceEntries(sources: Val): Dict<Key, Val>
  {
    if sources.Arr? then sources.entries else [(IntKey(0), sources)]
  }

  /** `escapedWidgetDataForJsAsJson()`: the JSON between Mustache delimiter
    * switches, so that the template engine leaves it alone. */
  function EscapedJson(json: string): (r: string)
    ensures Str.StartsWith(r, "{{=<% %>=}}") && Str.EndsWith(r, "<%={{ }}=%>")
    ensures |r| == |json| + 22 && r[11..|r| - 11] == json
  {
    "{{=<% %>=}}" + json + "<%={{ }}=%>"
  }

  /** The JSON can be read back from the escaped form. */
  lemma EscapedJsonInjective(a: string, b: string)
    requires EscapedJson(a) == EscapedJson(b)
    ensures a == b
  {
    assert a == EscapedJson(a)[11..|EscapedJson(a)| - 11];
  }

  class AdminWidget {
    var template: Option<string>
    var widgetType: Option<string>
    var ident: Option<string>
    var widgetId: Val
    /** The label as it renders to a string (null renders as ""). */
    var labelText: string
    var showLabel: Option<bool>
    var showActions: Option<bool>
    var dataSources: Option<seq<string>>
    var dataSourceFilters: Dict<Key, Val>
    /** `resolveDataSourceFilter`, which depends on which callables exist. */
    const resolveFilter: Val -> Val

    ghost predicate Valid()
      reads this
    {
      SourcesValid(Sources(dataSources, dataSourceFilters))
    }

    constructor (resolveFilter: Val -> Val)
      ensures Valid()
      ensures template == None && widgetType == None && ident == Some("") && widgetId == Null && labelText == ""
      ensures showLabel == None && showActions == None && dataSources == None && dataSourceFilters == []
      ensures this.resolveFilter == resolveFilter
    {
      template := None;
      widgetType := None;
      ident := Some("");
      widgetId := Null;
      labelText := "";
      showLabel := None;
      showActions := None;
      dataSources := None;
      dataSourceFilters := [];
      this.resolveFilter := resolveFilter;
    }

    /** `setTemplate()`. */
    method SetTemplate(v: Val) returns (err: Option<Exception>)
      modifies this`template
      ensures NullableString(v).Ok? ==> err == None && template == NullableString(v).value
      ensures NullableString(v).Err? ==> err == Some(InvalidArgument) && template == old(template)
    {
      var r := NullableString(v);
      if r.Err? {
        return Some(r.error);
      }
      template := r.value;
      err := None;
    }

    /** `template()`: the widget type stands in for a missing template. */
    function Template(): (r: Option<string>)
      reads this
      ensures template.Some? ==> r == template
      ensures template.None? ==> r == widgetType
    {
      if template.None? then widgetType else template
    }

    /** `setType()`. */
    method SetType(v: Val) returns (err: Option<Exception>)
      modifies this`widgetType
      ensures NullableString(v).Ok? ==> err == None && widgetType == NullableString(v).value
      ensures NullableString(v).Err? ==> err == Some(InvalidArgument) && widgetType == old(widgetType)
    {
      var r := NullableString(v);
      if r.Err? {
        return Some(r.error);
      }
      widgetType := r.value;
      err := None;
    }

    /** `setIdent()`. */
    method SetIdent(v: Val) returns (err: Option<Exception>)
      modifies this`ident
      ensures NullableString(v).Ok? ==> err == None && ident == NullableString(v).value
      ensures NullableString(v).Err? ==> err == Some(InvalidArgument) && ident == old(ident)
    {
      var r := NullableString(v);
      if r.Err? {
        return Some(r.error);
      }
      ident := r.value;
      err := None;
    }

    method SetWidgetId(v: Val)
      modifies this`widgetId
      ensures widgetId == v
    {
      widgetId := v;
    }

    /** `widgetId()`: a falsy id is replaced once by `widget_` and a unique
      * suffix; the id is truthy and stable afterwards. */
    method WidgetId(uniq: string) returns (r: Val)
      modifies this`widgetId
      ensures Truthy(r) && r == widgetId
      ensures Truthy(old(widgetId)) ==> widgetId == old(widgetId)
      ensures !Truthy(old(widgetId)) ==> widgetId == Str("widget_" + uniq)
    {
      if !Truthy(widgetId) {
        widgetId := Str("widget_" + uniq);
      }
      r := widgetId;
    }

    /** `setDataSources()`: null resets to the defaults; otherwise every
      * entry is added in turn, and a rejected one stops the loop with the
      * entries before it kept. */
    method SetDataSources(sources: Val) returns (err: Option<Exception>)
      requires Valid()
      modifies this`dataSources, this`dataSourceFilters
      ensures Valid()
      ensures sources.Null? ==> err == None && dataSources == None && dataSourceFilters == old(dataSourceFilters)
      ensures !sources.Null? ==>
        Outcome(Sources(dataSources, dataSourceFilters), err) ==
        AddSources(Sources(old(dataSources), old(dataSourceFilters)), SourceEntries(sources), resolveFilter)
    {
      if sources.Null? {
        dataSources := None;
        return None;
      }
      var es := SourceEntries(sources);
      var i := 0;
      while i < |es|
        invariant 0 <= i <= |es|
        invariant Valid()
        invariant AddSources(Sources(dataSources, dataSourceFilters), es[i..], resolveFilter) ==
          AddSources(Sources(old(dataSources), old(dataSourceFilters)), es, resolveFilter)
      {
        assert es[i..][1..] == es[i + 1..];
        var r := AddSource(Sources(dataSources, dataSourceFilters), es[i].0, es[i].1, resolveFilter);
        if r.Err? {
          return Some(r.error);
        }
        AddSourceValid(Sources(dataSources, dataSourceFilters), es[i].0, es[i].1, resolveFilter);
        dataSources := r.value.list;
        dataSourceFilters := r.value.filters;
        i := i + 1;
      }
      assert es[i..] == [];
      err := None;
    }

    /** `dataSources()`: the (empty) defaults while unset. */
    function DataSources(): (r: seq<string>)
      reads this
      ensures dataSources.None? ==> r == []
      ensures dataSources.Some? ==> r == dataSources.value
    {
      if dataSources.None? then [] else dataSources.value
    }

    /** `dataSourceFilter()`: the filter recorded for a source over the
      * (empty) defaults, or null. */
    function DataSourceFilter(sourceIdent: Val): (r: Result<Val>)
      requires Valid()
      reads this
      ensures !sourceIdent.Str? <==> r == Err(InvalidArgument)
      ensures sourceIdent.Str? ==> r == Ok(
        match Get(dataSourceFilters, StrKey(sourceIdent.s))
        case Some(f) => f
        case None => Null)
    {
      if !sourceIdent.Str? then Err(InvalidArgument)
      else
        var filters := Merge([], dataSourceFilters);
        MergeStrKey([], dataSourceFilters, sourceIdent.s);
        match Get(filters, StrKey(sourceIdent.s))
        case Some(f) => if f != Null then Ok(f) else Ok(Null)
        case None => Ok(Null)
    }

    method SetLabel(rendered: string)
      modifies this`labelText
      ensures labelText == rendered
    {
      labelText := rendered;
    }

    method SetShowActions(show: Val)
      modifies this`showActions
      ensures showActions == Some(Truthy(show))
    {
      showActions := Some(Truthy(show));
    }

    /** `showActions()`: false when disabled, otherwise whether the widget
      * has actions. */
    function ShowActions(actions: seq<Val>): (r: bool)
      reads this
      ensures showActions == Some(false) ==> !r
      ensures showActions != Some(false) ==> (r <==> |actions| > 0)
    {
      showActions != Some(false) && |actions| > 0
    }

    method SetShowLabel(show: Val)
      modifies this`showLabel
      ensures showLabel == Some(Truthy(show))
    {
      showLabel := Some(Truthy(show));
    }

    /** `showLabel()`: false when disabled, otherwise whether the label's
      * string is truthy (neither empty nor "0"). */
    function ShowLabel(): (r: bool)
      reads this
      ensures showLabel == Some(false) ==> !r
      ensures showLabel != Some(false) ==> (r <==> labelText != "" && labelText != "0")
    {
      showLabel != Some(false) && Truthy(Str(labelText))
    }
  }
}
