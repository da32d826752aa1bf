/**
 * The select input: its choices with the optional empty choice first, the
 * fields every parsed choice carries, and the select-picker settings held
 * as defaults overridden by what is set.
 */
module SelectInput {
  import opened Php

  /** `choices()`: the parsed empty choice first exactly when the property
    * allows null and is not multiple, then the inherited choices in order. */
  function Choices(allowNull: Val, multiple: Val, emptyChoice: Fields, inherited: seq<Fields>): (r: seq<Fields>)
    ensures (Truthy(allowNull) && !Truthy(multiple)) ==> r == [emptyChoice] + inherited
    ensures !(Truthy(allowNull) && !Truthy(multiple)) ==> r == inherited
    ensures |r| == |inherited| + (if Truthy(allowNull) && !Truthy(multiple) then 1 else 0)
  {
    (if Truthy(allowNull) && !Truthy(multiple) then [emptyChoice] else []) + inherited
  }

  /** `parseChoice()` after the inherited parsing gave `parsed` (null,
    * which the writes turn into an array, is the empty record): the
    * `title` is the translated title, else the translated label; `subtext`
    * and `icon` default to `''`; for a hierarchical property (`objId`
    * given) `disabled` holds iff the choice's value is the object's id.
    * Nothing else changes. */
  function ParseChoice(parsed: Fields, translate: Val -> string, objId: Option<Val>): (r: Fields)
    ensures Field(r, "title") == Str(translate(if Has(parsed, "title") then Field(parsed, "title") else Field(parsed, "label")))
    ensures Field(r, "subtext") == (if Has(parsed, "subtext") then Field(parsed, "subtext") else Str(""))
    ensures Field(r, "icon") == (if Has(parsed, "icon") then Field(parsed, "icon") else Str(""))
    ensures objId.Some? ==> Field(r, "disabled") == Bool(Field(parsed, "value") == objId.value)
    ensures objId.None? ==> Field(r, "disabled") == Field(parsed, "disabled")
    ensures forall k :: k in r && k !in {"title", "subtext", "icon", "disabled"} ==> k in parsed && r[k] == parsed[k]
    ensures forall k :: k in parsed ==> k in r
  {
    var c1 := parsed["title" := Str(translate(if Has(parsed, "title") then Field(parsed, "title") else Field(parsed, "label")))];
    var c2 := if !Has(c1, "subtext") then c1["subtext" := Str("")] else c1;
    var c3 := if !Has(c2, "icon") then c2["icon" := Str("")] else c2;
    if objId.Some? then c3["disabled" := Bool(Field(c3, "value") == objId.value)] else c3
  }

  /** `defaultSelectOptions()`. */
  function DefaultSelectOptions(): (r: Dict<Key, Val>)
    ensures UniqueKeys(r)
  {
    [(StrKey("style"), Str("")), (StrKey("template"), Record([("caret", Str(""))]))]
  }

  /** Settings override the defaults key by key; a default the settings do
    * not name is kept. */
  lemma SelectOptionsOverride(settings: Dict<Key, Val>, k: string)
    requires UniqueKeys(settings)
    ensures Get(Merge(DefaultSelectOptions(), settings), StrKey(k)) ==
      if StrKey(k) in Keys(settings) then Get(settings, StrKey(k)) else Get(DefaultSelectOptions(), StrKey(k))
  {
    MergeStrKey(DefaultSelectOptions(), settings, k);
  }

  class SelectInputOptions {
    /** The select-picker settings; `None` while unset (PHP null). */
    var selectOptions: Option<Dict<Key, Val>>

    constructor ()
      ensures selectOptions.None?
    {
      selectOptions := None;
    }

    /** `setSelectOptions()`: the defaults overridden by the settings. */
    method SetSelectOptions(settings: Dict<Key, Val>)
      modifies this`selectOptions
      ensures selectOptions == Some(Merge(DefaultSelectOptions(), settings))
    {
      selectOptions := Some(Merge(DefaultSelectOptions(), settings));
    }

    /** `mergeSelectOptions()`: the settings replace or add keys; on unset
      * options `array_merge` receives null and throws a `TypeError`. */
    method MergeSelectOptions(settings: Dict<Key, Val>) returns (err: Option<Exception>)
      modifies this`selectOptions
      ensures old(selectOptions).None? ==> err == Some(TypeError) && selectOptions == old(selectOptions)
      ensures old(selectOptions).Some? ==> err.None? && selectOptions == Some(Merge(old(selectOptions).value, settings))
    {
      if selectOptions.None? {
        return Some(TypeError);
      }
      selectOptions := Some(Merge(selectOptions.value, settings));
      err := None;
    }

    /** `addSelectOption()`: rejects a non-string key; otherwise loads the
      * defaults when unset and writes that one key. */
    method AddSelectOption(key: Val, v: Val) returns (err: Option<Exception>)
      modifies this`selectOptions
      ensures !key.Str? ==> err == Some(InvalidArgument) && selectOptions == old(selectOptions)
      ensures key.Str? ==> (err.None? && selectOptions.Some?
        && selectOptions.value == Put(if old(selectOptions).Some? then old(selectOptions).value else DefaultSelectOptions(), StrKey(key.s), v))
    {
      if !key.Str? {
        return Some(InvalidArgument);
      }
      if selectOptions.None? {
        var _ := SelectOptions();
      }
      selectOptions := Some(Put(selectOptions.value, StrKey(key.s), v));
      err := None;
    }

    /** `selectOptions()`: unset options become the defaults, and stay. */
    method SelectOptions() returns (r: Dict<Key, Val>)
      modifies this`selectOptions
      ensures old(selectOptions).Some? ==> selectOptions == old(selectOptions)
      ensures old(selectOptions).None? ==> selectOptions == Some(DefaultSelectOptions())
      ensures selectOptions == Some(r)
    {
      if selectOptions.None? {
        selectOptions := Some(DefaultSelectOptions());
      }
      r := selectOptions.value;
    }
  }

  /** Adding a key changes that key only: every other setting reads as
    * before (or as its default while unset). */
  lemma AddSelectOptionOnlyKey(before: Option<Dict<Key, Val>>, key: string, v: Val, j: Key)
    requires j != StrKey(key)
    ensures Get(Put(if before.Some? then before.value else DefaultSelectOptions(), StrKey(key), v), j)
      == Get(if before.Some? then before.value else DefaultSelectOptions(), j)
  {
  }
}
