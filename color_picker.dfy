/**
 * The color picker input: its control type and its picker settings, held
 * as defaults overridden by what is set.
 */
module ColorPicker {
  import opened Php

  /** `type()`: the HTML control type. */
  const ControlType := "color"

  /** `defaultPickerOptions()`. */
  function DefaultPickerOptions(): (r: Dict<Key, Val>)
    ensures UniqueKeys(r) && |r| == 4
  {
    [(StrKey("format"), Str("hex")), (StrKey("letterCase"), Str("uppercase")),
     (StrKey("opacity"), Bool(false)), (StrKey("theme"), Str("bootstrap"))]
  }

  /** Settings override the defaults key by key; a default the settings do
    * not name is kept. */
  lemma PickerOptionsOverride(settings: Dict<Key, Val>, k: string)
    requires UniqueKeys(settings)
    ensures Get(Merge(DefaultPickerOptions(), settings), StrKey(k)) ==
      if StrKey(k) in Keys(settings) then Get(settings, StrKey(k)) else Get(DefaultPickerOptions(), StrKey(k))
  {
    MergeStrKey(DefaultPickerOptions(), settings, k);
  }

  /** Merging adds or overwrites only the named string keys. */
  lemma MergePickerOptionsOnlyNamed(current: Dict<Key, Val>, settings: Dict<Key, Val>, k: string)
    requires UniqueKeys(current) && UniqueKeys(settings)
    requires StrKey(k) !in Keys(settings)
    ensures Get(Merge(current, settings), StrKey(k)) == Get(current, StrKey(k))
  {
    MergeStrKey(current, settings, k);
  }

  class ColorPickerInput {
    /** The picker settings; `None` while unset (PHP null). */
    var pickerOptions: Option<Dict<Key, Val>>

    constructor ()
      ensures pickerOptions.None?
    {
      pickerOptions := None;
    }

    /** `type()`. */
    function Type(): (r: string)
      ensures r == "color"
    {
      ControlType
    }

    /** `setPickerOptions()`: the defaults overridden by the settings. */
    method SetPickerOptions(settings: Dict<Key, Val>)
      modifies this`pickerOptions
      ensures pickerOptions == Some(Merge(DefaultPickerOptions(), settings))
    {
      pickerOptions := Some(Merge(DefaultPickerOptions(), settings));
    }

    /** `mergePickerOptions()`: the settings replace or add keys; on unset
      * options `array_merge` receives null and throws a `TypeError`. */
    method MergePickerOptions(settings: Dict<Key, Val>) returns (err: Option<Exception>)
      modifies this`pickerOptions
      ensures old(pickerOptions).None? ==> err == Some(TypeError) && pickerOptions == old(pickerOptions)
      ensures old(pickerOptions).Some? ==> err.None? && pickerOptions == Some(Merge(old(pickerOptions).value, settings))
    {
      if pickerOptions.None? {
        return Some(TypeError);
      }
      pickerOptions := Some(Merge(pickerOptions.value, settings));
      err := None;
    }

    /** `addPickerOption()`: rejects a non-string key; otherwise loads the
      * defaults when unset and writes that one key. */
    method AddPickerOption(key: Val, v: Val) returns (err: Option<Exception>)
      modifies this`pickerOptions
      ensures !key.Str? ==> err == Some(InvalidArgument) && pickerOptions == old(pickerOptions)
      ensures key.Str? ==> (err.None? && pickerOptions.Some?
        && pickerOptions.value == Put(if old(pickerOptions).Some? then old(pickerOptions).value else DefaultPickerOptions(), StrKey(key.s), v))
    {
      if !key.Str? {
        return Some(InvalidArgument);
      }
      if pickerOptions.None? {
        var _ := PickerOptions();
      }
      pickerOptions := Some(Put(pickerOptions.value, StrKey(key.s), v));
      err := None;
    }

    /** `pickerOptions()`: unset options become the defaults, and stay. */
    method PickerOptions() returns (r: Dict<Key, Val>)
      modifies this`pickerOptions
      ensures old(pickerOptions).Some? ==> pickerOptions == old(pickerOptions)
      ensures old(pickerOptions).None? ==> pickerOptions == Some(DefaultPickerOptions())
      ensures pickerOptions == Some(r)
    {
      if pickerOptions.None? {
        pickerOptions := Some(DefaultPickerOptions());
      }
      r := pickerOptions.value;
    }
  }
}
