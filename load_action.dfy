/**
 * The load action behind the object picker: which properties a query
 * searches, the OR group of LIKE conditions it adds to the property's
 * filters, the feedback that counts the choices, and the results record.
 */
module SelectizeLoad {
  import opened Php
  import opened Str

  /** `(array)$v` iterated by `foreach`: the values of an array, or the
    * value itself. */
  function AsList(v: Val): seq<Val>
  {
    if v.Arr? then Values(v.entries) else [v]
  }

  /** The properties searched: the `searchProperties` option when it is
    * non-empty; else the choice map's label when it is non-empty and is not
    * a template; else none. */
  function SearchProperties(options: Val, choiceMap: Val): (r: seq<Val>)
    ensures Truthy(At(options, "searchProperties")) ==> r == AsList(At(options, "searchProperties"))
    ensures !Truthy(At(options, "searchProperties")) ==>
      r == if Truthy(At(choiceMap, "label")) && !Contains(ScalarString(At(choiceMap, "label")), "{{")
           then [At(choiceMap, "label")] else []
  {
    var searched := At(options, "searchProperties");
    var caption := At(choiceMap, "label");
    if Truthy(searched) then AsList(searched)
    else if Truthy(caption) && !Contains(ScalarString(caption), "{{") then [caption]
    else []
  }

  /** One `LIKE` condition on `property` matching `query` anywhere. */
  function Condition(property: Val, query: string): Val
  {
    Record([("property", property), ("operator", Str("LIKE")), ("value", Str("%" + query + "%"))])
  }

  function Conditions(props: seq<Val>, query: string): (r: seq<Val>)
    ensures |r| == |props|
    ensures forall i :: 0 <= i < |props| ==> r[i] == Condition(props[i], query)
  {
    if props == [] then [] else [Condition(props[0], query)] + Conditions(props[1..], query)
  }

  /** The `OR` group over the given conditions. */
  function SearchGroup(conditions: seq<Val>): Val
  {
    Record([("conjunction", Str("OR")), ("conditions", List(conditions))])
  }

  /** The search group: one `OR` over one condition per searched property,
    * in order. */
  function Search(props: seq<Val>, query: string): (r: Val)
    ensures At(r, "conjunction") == Str("OR")
    ensures At(r, "conditions").Arr? && ListPart(At(r, "conditions").entries) == Conditions(props, query)
  {
    var conds := List(Conditions(props, query));
    var r := SearchGroup(Conditions(props, query));
    assert r.entries == [(StrKey("conjunction"), Str("OR")), (StrKey("conditions"), conds)];
    assert r.entries[1..] == [(StrKey("conditions"), conds)];
    assert At(r, "conditions") == Lookup(r.entries[1..], "conditions") == conds;
    r
  }

  /** The index `array_push` uses next: one above the largest integer key,
    * and at least 0. */
  function NextIndex(es: seq<(Key, Val)>): (n: int)
    ensures n >= 0 && IntKeysBelow(es, n)
  {
    if es == [] then 0
    else
      var r := NextIndex(es[1..]);
      var n := if es[0].0.IntKey? && es[0].0.n + 1 > r then es[0].0.n + 1 else r;
      assert Keys(es) == [es[0].0] + Keys(es[1..]);
      n
  }

  /** The filters after the search group is added: pushed after the
    * existing filters of an array, or alone in a new list. */
  function WithSearch(filters: Val, search: Val): (r: Val)
    ensures r.Arr?
    ensures filters.Arr? ==> (|r.entries| == |filters.entries| + 1
      && r.entries[..|filters.entries|] == filters.entries
      && r.entries[|filters.entries|].1 == search)
    ensures !filters.Arr? ==> r == List([search])
  {
    if filters.Arr? then Arr(filters.entries + [(IntKey(NextIndex(filters.entries)), search)])
    else List([search])
  }

  /** The search group becomes the last entry of the filter list, every
    * existing filter keeps its key, and keys stay distinct. */
  lemma WithSearchList(filters: Val, search: Val)
    ensures ListPart(WithSearch(filters, search).entries)
      == (if filters.Arr? then ListPart(filters.entries) else []) + [search]
    ensures filters.Arr? && UniqueKeys(filters.entries) ==> UniqueKeys(WithSearch(filters, search).entries)
  {
    if filters.Arr? {
      var e := (IntKey(NextIndex(filters.entries)), search);
      ListPartAppend(filters.entries, e);
      if UniqueKeys(filters.entries) {
        UniqueAppend(filters.entries, e);
      }
    }
  }

  /** The filters the property ends with: untouched unless the query is
    * truthy and some property is searched. */
  function LoadFilters(query: string, options: Val, choiceMap: Val, filters: Val): Val
  {
    var props := SearchProperties(options, choiceMap);
    if Truthy(Str(query)) && props != [] then WithSearch(filters, Search(props, query))
    else filters
  }

  /** A query only changes the filters by appending one search group, and
    * an empty (or `"0"`) query never changes them. */
  lemma LoadFiltersAppend(query: string, options: Val, choiceMap: Val, filters: Val)
    ensures !Truthy(Str(query)) ==> LoadFilters(query, options, choiceMap, filters) == filters
    ensures filters.Arr? ==> (LoadFilters(query, options, choiceMap, filters).Arr?
      && ListPart(filters.entries) <= ListPart(LoadFilters(query, options, choiceMap, filters).entries))
  {
    var props := SearchProperties(options, choiceMap);
    if filters.Arr? && Truthy(Str(query)) && props != [] {
      WithSearchList(filters, Search(props, query));
    }
  }

  /** The success message, before translation. */
  datatype Done = NoneFound | OneFound | ManyFound(count: nat)

  /** The message for `count` choices. */
  function DoneMessage(count: nat): (r: Done)
    ensures r == NoneFound <==> count == 0
    ensures r == OneFound <==> count == 1
    ensures r.ManyFound? ==> count >= 2 && r.count == count
  {
    if count == 0 then NoneFound
    else if count == 1 then OneFound
    else ManyFound(count)
  }

  datatype Feedback = Success(done: Done) | Error(thrown: string)

  /** What loading the choices gave: the choices, or the message of what
    * was thrown on the way. */
  datatype Loaded = Choices(choices: seq<Val>) | Threw(message: string)

  /** The search conditions, one per searchable property, in order. */
  method BuildConditions(searched: seq<Val>, query: string) returns (conditions: seq<Val>)
    ensures conditions == Conditions(searched, query)
  {
    conditions := [];
    var i := 0;
    while i < |searched|
      invariant 0 <= i <= |searched|
      invariant conditions == Conditions(searched[..i], query)
    {
      assert searched[..i + 1] == searched[..i] + [searched[i]];
      ConditionsAppend(searched[..i], searched[i], query);
      conditions := conditions + [Condition(searched[i], query)];
      i := i + 1;
    }
    assert searched[..i] == searched;
  }

  /** The filters `run()` passes on: the query's search group, built one
    * searchable property at a time, appended to the given filters. */
  method BuildFilters(query: string, options: Val, choiceMap: Val, filters: Val) returns (newFilters: Val)
    ensures newFilters == LoadFilters(query, options, choiceMap, filters)
  {
    newFilters := filters;
    if Truthy(Str(query)) {
      var searched := SearchProperties(options, choiceMap);
      if searched != [] {
        var conditions := BuildConditions(searched, query);
        var search := SearchGroup(conditions);
        assert LoadFilters(query, options, choiceMap, filters) == WithSearch(filters, search);
        if filters.Arr? {
          newFilters := Arr(filters.entries + [(IntKey(NextIndex(filters.entries)), search)]);
        } else {
          newFilters := List([search]);
        }
      }
    }
  }

  class LoadAction {
    var query: string
    var selectizeCollection: Val
    var success: bool
    var feedbacks: seq<Feedback>

    constructor ()
      ensures query == "" && selectizeCollection == Null && !success && feedbacks == []
    {
      query := "";
      selectizeCollection := Null;
      success := false;
      feedbacks := [];
    }

    method SetQuery(q: string)
      modifies this`query
      ensures query == q
    {
      query := q;
    }

    /** `run()`. `filters` are the property's filters, `loaded` its choices
      * once the new filters are set, and `render` turns choices into what
      * the picker receives. Returns the status (200 when the response is
      * passed through) and the filters handed to the property's
      * `setFilters`. The model always computes those filters; when the
      * exception is raised before `setFilters` runs (in `selectizeInput()`,
      * say), the source hands the property nothing, so `newFilters` is
      * then what the filters would have been, not what the property
      * received. */
    method Run(options: Val, choiceMap: Val, filters: Val, loaded: Loaded, render: seq<Val> -> Val)
      returns (status: int, newFilters: Val)
      modifies this`selectizeCollection, this`success, this`feedbacks
      ensures newFilters == LoadFilters(query, options, choiceMap, filters)
      ensures loaded.Choices? ==> (status == 200 && success
        && selectizeCollection == render(loaded.choices)
        && feedbacks == old(feedbacks) + [Success(DoneMessage(|loaded.choices|))])
      ensures loaded.Threw? ==> (status == 500 && !success
        && selectizeCollection == old(selectizeCollection)
        && feedbacks == old(feedbacks) + [Error(loaded.message)])
    {
      match loaded {
        case Threw(message) =>
          feedbacks := feedbacks + [Error(message)];
          success := false;
          status := 500;
        case Choices(choices) =>
          selectizeCollection := render(choices);
          var count := |choices|;
          var done;
          if count == 0 {
            done := NoneFound;
          } else if count == 1 {
            done := OneFound;
          } else {
            done := ManyFound(count);
          }
          assert done == DoneMessage(|choices|);
          feedbacks := feedbacks + [Success(done)];
          success := true;
          status := 200;
      }
      newFilters := BuildFilters(query, options, choiceMap, filters);
    }

    /** `results()`: exactly the success flag, the feedbacks and the
      * collection. */
    method Results(feedbackValues: Val) returns (r: Val)
      ensures r.Arr? && Keys(r.entries) == [StrKey("success"), StrKey("feedbacks"), StrKey("selectize")]
      ensures At(r, "success") == Bool(success) && At(r, "selectize") == selectizeCollection
    {
      r := Record([("success", Bool(success)), ("feedbacks", feedbackValues), ("selectize", selectizeCollection)]);
      assert r.entries == [(StrKey("success"), Bool(success)), (StrKey("feedbacks"), feedbackValues),
        (StrKey("selectize"), selectizeCollection)];
      assert r.entries[1..][1..] == [(StrKey("selectize"), selectizeCollection)];
      assert At(r, "selectize") == Lookup(r.entries[1..], "selectize") == Lookup(r.entries[1..][1..], "selectize");
      assert Keys(r.entries[1..][1..]) == [StrKey("selectize")];
      assert Keys(r.entries[1..]) == [StrKey("feedbacks")] + Keys(r.entries[1..][1..]);
    }
  }

  lemma {:induction false} ConditionsAppend(props: seq<Val>, p: Val, query: string)
    ensures Conditions(props + [p], query) == Conditions(props, query) + [Condition(p, query)]
  {
  }
}
