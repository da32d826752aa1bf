/**
 * The date-time picker input: its picker settings, held as defaults
 * (a fixed format and the input's value as default date) overridden by
 * what is set.
 */
module DateTimePicker {
  import opened Php

  /** `defaultDatetimepickerOptions()` for an input holding `inputVal`. */
  function DefaultOptions(inputVal: Val): (r: Dict<Key, Val>)
    ensures UniqueKeys(r)
    ensures Get(r, StrKey("format")) == Some(Str("YYYY-MM-DD HH:mm:ss"))
    ensures Get(r, StrKey("defaultDate")) == Some(inputVal)
  {
    var r := [(StrKey("format"), Str("YYYY-MM-DD HH:mm:ss")), (StrKey("defaultDate"), inputVal)];
    assert r[1..][1..] == [];
    assert Keys(r[1..]) == [StrKey("defaultDate")];
    assert "format" != "defaultDate";
    assert UniqueKeys(r[1..]);
    assert r[0].0 !in Keys(r[1..]);
    r
  }

  /** The given options override the defaults key by key; a default they
    * do not name is kept. */
  lemma OptionsOverride(inputVal: Val, opts: Dict<Key, Val>, k: string)
    requires UniqueKeys(opts)
    ensures Get(Merge(DefaultOptions(inputVal), opts), StrKey(k)) ==
      if StrKey(k) in Keys(opts) then Get(opts, StrKey(k)) else Get(DefaultOptions(inputVal), StrKey(k))
  {
    MergeStrKey(DefaultOptions(inputVal), opts, k);
  }

  /** The lazy initialisation merges the defaults over themselves, which
    * reads as the defaults. */
  lemma DefaultsOverDefaults(inputVal: Val, k: string)
    ensures Get(Merge(DefaultOptions(inputVal), DefaultOptions(inputVal)), StrKey(k))
      == Get(DefaultOptions(inputVal), StrKey(k))
  {
    MergeStrKey(DefaultOptions(inputVal), DefaultOptions(inputVal), k);
  }

  class DateTimePickerInput {
    /** The picker settings; `None` while unset (PHP null). */
    var datetimepickerOptions: Option<Dict<Key, Val>>

    constructor ()
      ensures datetimepickerOptions.None?
    {
      datetimepickerOptions := None;
    }

    /** `setDatetimepickerOptions()`: the defaults overridden by `opts`. */
    method SetDatetimepickerOptions(opts: Dict<Key, Val>, inputVal: Val)
      modifies this`datetimepickerOptions
      ensures datetimepickerOptions == Some(Merge(DefaultOptions(inputVal), opts))
    {
      datetimepickerOptions := Some(Merge(DefaultOptions(inputVal), opts));
    }

    /** `addOption()`: a non-string ident fails (the exception class it
      * names is not imported, so PHP raises a plain error); otherwise the
      * defaults are loaded when unset and that one key is written. */
    method AddOption(ident: Val, v: Val, inputVal: Val) returns (err: Option<Exception>)
      modifies this`datetimepickerOptions
      ensures !ident.Str? ==> err == Some(Generic) && datetimepickerOptions == old(datetimepickerOptions)
      ensures ident.Str? ==> (err.None? && datetimepickerOptions.Some?
        && datetimepickerOptions.value == Put(
             if old(datetimepickerOptions).Some? then old(datetimepickerOptions).value
             else Merge(DefaultOptions(inputVal), DefaultOptions(inputVal)),
             StrKey(ident.s), v))
    {
      if !ident.Str? {
        return Some(Generic);
      }
      if datetimepickerOptions.None? {
        var _ := DatetimepickerOptions(inputVal);
      }
      datetimepickerOptions := Some(Put(datetimepickerOptions.value, StrKey(ident.s), v));
      err := None;
    }

    /** `datetimepickerOptions()`: unset options are set from the defaults,
      * and stay. */
    method DatetimepickerOptions(inputVal: Val) returns (r: Dict<Key, Val>)
      modifies this`datetimepickerOptions
      ensures old(datetimepickerOptions).Some? ==> datetimepickerOptions == old(datetimepickerOptions)
      ensures old(datetimepickerOptions).None? ==>
        datetimepickerOptions == Some(Merge(DefaultOptions(inputVal), DefaultOptions(inputVal)))
      ensures datetimepickerOptions == Some(r)
    {
      if datetimepickerOptions.None? {
        SetDatetimepickerOptions(DefaultOptions(inputVal), inputVal);
      }
      r := datetimepickerOptions.value;
    }
  }
}
