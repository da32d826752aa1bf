/**
 * The object collection template: the list its search widget uses, the
 * dashboard configuration it resolves from the object's admin metadata,
 * its side menu and its title.
 */
module CollectionTemplate {
  import opened Php

  /** `$a[$k]` for a key given as a value: integers and strings index,
    * anything else reads nothing. */
  function AtVal(a: Val, k: Val): Val
  {
    if !a.Arr? then Null
    else match k
      case Int(n) => (match Get(a.entries, IntKey(n)) case Some(x) => x case None => Null)
      case Str(s) => Lookup(a.entries, s)
      case _ => Null
  }

  /** `isset($a[$k])` for a key given as a value. */
  predicate IsSetVal(a: Val, k: Val)
  {
    AtVal(a, k) != Null
  }

  /** The list the search widget shows: `default_search_list`, else
    * `default_list`, else `default`, each skipped when falsy. */
  function SearchListIdent(admin: Val): (r: Val)
    ensures Truthy(r)
    ensures Truthy(At(admin, "default_search_list")) ==> r == At(admin, "default_search_list")
    ensures !Truthy(At(admin, "default_search_list")) && Truthy(At(admin, "default_list")) ==>
      r == At(admin, "default_list")
    ensures !Truthy(At(admin, "default_search_list")) && !Truthy(At(admin, "default_list")) ==>
      r == Str("default")
  {
    var first := if IsSet(admin, "default_search_list") then At(admin, "default_search_list") else Str("");
    var second := if !Truthy(first) then (if IsSet(admin, "default_list") then At(admin, "default_list") else Str("")) else first;
    if !Truthy(second) then Str("default") else second
  }

  /** `false`, `null` or `''`: a dashboard ident that is not given. */
  predicate Blank(v: Val)
  {
    v == Bool(false) || v == Null || v == Str("")
  }

  /** The dashboard ident: the one set on the template, else the
    * `dashboard_ident` query parameter, else the metadata's
    * `default_collection_dashboard`; an error when none is given. */
  function DashboardIdent(setIdent: Val, queryIdent: Val, admin: Val): (r: Result<Val>)
    ensures r.Ok? ==> r.value != Null
    ensures !Blank(setIdent) ==> r == Ok(setIdent)
    ensures Blank(setIdent) && !Blank(queryIdent) ==> r == Ok(queryIdent)
    ensures Blank(setIdent) && Blank(queryIdent) ==>
      (r.Err? <==> !IsSet(admin, "default_collection_dashboard"))
  {
    var ident := if Blank(setIdent) then queryIdent else setIdent;
    if Blank(ident) then
      if !IsSet(admin, "default_collection_dashboard") then Err(Generic)
      else Ok(At(admin, "default_collection_dashboard"))
    else Ok(ident)
  }

  /** `objCollectionDashboardConfig()`: an error without admin metadata or
    * without a dashboard ident; a non-empty explicit configuration as it
    * is; else the `dashboards` entry the ident names, an error when there
    * is none. */
  function DashboardConfig(meta: Val, setIdent: Val, setConfig: Val, queryIdent: Val): (r: Result<Val>)
    ensures !IsSet(meta, "admin") ==> r.Err?
    ensures IsSet(meta, "admin") && DashboardIdent(setIdent, queryIdent, At(meta, "admin")).Err? ==> r.Err?
    ensures IsSet(meta, "admin") && DashboardIdent(setIdent, queryIdent, At(meta, "admin")).Ok? ==>
      r == (if Truthy(setConfig) then Ok(setConfig)
            else
              var dashboards := At(At(meta, "admin"), "dashboards");
              var ident := DashboardIdent(setIdent, queryIdent, At(meta, "admin")).value;
              if IsSetVal(dashboards, ident) then Ok(AtVal(dashboards, ident)) else Err(Generic))
    ensures r.Ok? ==> Truthy(r.value) || IsSetVal(At(At(meta, "admin"), "dashboards"), DashboardIdent(setIdent, queryIdent, At(meta, "admin")).value)
  {
    var admin := if IsSet(meta, "admin") then At(meta, "admin") else Null;
    if admin == Null then Err(Generic)
    else
      match DashboardIdent(setIdent, queryIdent, admin)
      case Err(e) => Err(e)
      case Ok(ident) =>
        if !Truthy(setConfig) then
          if !IsSet(admin, "dashboards") || !IsSetVal(At(admin, "dashboards"), ident) then Err(Generic)
          else Ok(AtVal(At(admin, "dashboards"), ident))
        else Ok(setConfig)
  }

  /** An explicit configuration does not spare the ident lookup: without a
    * set, queried or default ident the template fails even when a
    * configuration is given. */
  lemma ExplicitConfigNeedsIdent(meta: Val, setIdent: Val, setConfig: Val, queryIdent: Val)
    requires Blank(setIdent) && Blank(queryIdent)
    requires !IsSet(At(meta, "admin"), "default_collection_dashboard")
    ensures DashboardConfig(meta, setIdent, setConfig, queryIdent).Err?
  {
  }

  /** The side menu widget to build: its type and the options it receives. */
  datatype Sidemenu = Sidemenu(widgetType: Val, options: Option<Val>)

  /** `sidemenu()`: none without a `sidemenu` entry in the dashboard
    * configuration; else its `widget_type`, `charcoal/admin/widget/sidemenu`
    * by default, with its `widget_options` when set. */
  function SidemenuOf(config: Val): (r: Option<Sidemenu>)
    ensures r.None? <==> !IsSet(config, "sidemenu")
    ensures r.Some? ==> r.value.widgetType != Null
    ensures r.Some? && !IsSet(At(config, "sidemenu"), "widget_type") ==>
      r.value.widgetType == Str("charcoal/admin/widget/sidemenu")
    ensures r.Some? ==> (r.value.options.Some? <==> IsSet(At(config, "sidemenu"), "widget_options"))
  {
    if !IsSet(config, "sidemenu") then None
    else
      var side := At(config, "sidemenu");
      var widgetType := if IsSet(side, "widget_type") then At(side, "widget_type") else Str("charcoal/admin/widget/sidemenu");
      Some(Sidemenu(widgetType, if IsSet(side, "widget_options") then Some(At(side, "widget_options")) else None))
  }

  /** The template's title before it is turned into text: a configured
    * title, or `List: ` followed by a label. */
  datatype Title = Configured(source: Val) | ListOf(labelOf: Val)

  /** The label a list title names: the translatable label of the default
    * list, else the object type. */
  function ListLabel(meta: Val, objType: string, translatable: Val -> bool): (r: Val)
    ensures r == Str(objType) || (r.Translation? && translatable(r.source))
  {
    if IsSet(meta, "admin") then
      var admin := At(meta, "admin");
      var formIdent := if IsSet(admin, "default_list") then At(admin, "default_list") else Str("");
      var lists := At(admin, "lists");
      var formData := if IsSetVal(lists, formIdent) then AtVal(lists, formIdent) else Arr([]);
      if IsSet(formData, "label") && translatable(At(formData, "label")) then Translation(At(formData, "label"))
      else Str(objType)
    else Str(objType)
  }

  class CollectionTemplate {
    var title: Option<Title>

    constructor ()
      ensures title.None?
    {
      title := None;
    }

    /** `title()`: the configured title when the dashboard configuration
      * has one (returned, not kept); else the list title, which is kept.
      * Fails as the dashboard configuration does. */
    method Title(meta: Val, setIdent: Val, setConfig: Val, queryIdent: Val,
                 objType: string, translatable: Val -> bool) returns (r: Result<Title>)
      modifies this`title
      ensures DashboardConfig(meta, setIdent, setConfig, queryIdent).Err? ==> r.Err? && title == old(title)
      ensures DashboardConfig(meta, setIdent, setConfig, queryIdent).Ok? ==>
        var config := DashboardConfig(meta, setIdent, setConfig, queryIdent).value;
        if IsSet(config, "title") then r == Ok(Configured(At(config, "title"))) && title == old(title)
        else r == Ok(ListOf(ListLabel(meta, objType, translatable))) && title == Some(r.value)
    {
      var config := DashboardConfig(meta, setIdent, setConfig, queryIdent);
      if config.Err? {
        return Err(config.error);
      }
      if IsSet(config.value, "title") {
        return Ok(Configured(At(config.value, "title")));
      }
      title := Some(ListOf(ListLabel(meta, objType, translatable)));
      r := Ok(title.value);
    }
  }
}
