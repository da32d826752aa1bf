/**
 * The rich-text editor input: its editor settings, set wholesale or key
 * by key, and the title of its file-picker dialog with a bilingual
 * default.
 */
module TinymceInput {
  import opened Php

  /** `defaultDialogTitle()`. */
  function DefaultDialogTitle(): (r: Val)
    ensures At(r, "en") == Str("Media Library")
    ensures At(r, "fr") == Str("Bibliothèque de médias")
  {
    var r := Record([("en", Str("Media Library")), ("fr", Str("Bibliothèque de médias"))]);
    assert r.entries == [(StrKey("en"), Str("Media Library")), (StrKey("fr"), Str("Bibliothèque de médias"))];
    assert At(r, "fr") == Lookup(r.entries[1..], "fr");
    r
  }

  /** `setDialogTitle()`'s value: a translation of a translatable title,
    * null otherwise. */
  function DialogTitleOf(title: Val, translatable: Val -> bool): (r: Val)
    ensures translatable(title) <==> r != Null
    ensures r != Null ==> r == Translation(title)
  {
    if translatable(title) then Translation(title) else Null
  }

  class TinymceInput {
    var editorOptions: Dict<Key, Val>
    var dialogTitle: Val

    constructor ()
      ensures editorOptions == [] && dialogTitle == Null
    {
      editorOptions := [];
      dialogTitle := Null;
    }

    /** `setEditorOptions()`: the options are replaced wholesale. */
    method SetEditorOptions(opts: Dict<Key, Val>)
      modifies this`editorOptions
      ensures editorOptions == opts
    {
      editorOptions := opts;
    }

    /** `addEditorOption()`: a non-array value is refused by the parameter
      * type, then a non-string ident raises `InvalidArgumentException`;
      * otherwise that one key is written. */
    method AddEditorOption(ident: Val, v: Val) returns (err: Option<Exception>)
      modifies this`editorOptions
      ensures !v.Arr? ==> err == Some(TypeError) && editorOptions == old(editorOptions)
      ensures v.Arr? && !ident.Str? ==> err == Some(InvalidArgument) && editorOptions == old(editorOptions)
      ensures v.Arr? && ident.Str? ==> err.None? && editorOptions == Put(old(editorOptions), StrKey(ident.s), v)
    {
      if !v.Arr? {
        return Some(TypeError);
      }
      if !ident.Str? {
        return Some(InvalidArgument);
      }
      editorOptions := Put(editorOptions, StrKey(ident.s), v);
      err := None;
    }

    method SetDialogTitle(title: Val, translatable: Val -> bool)
      modifies this`dialogTitle
      ensures dialogTitle == DialogTitleOf(title, translatable)
    {
      if translatable(title) {
        dialogTitle := Translation(title);
      } else {
        dialogTitle := Null;
      }
    }

    /** `dialogTitle()`: a null title is set from the default first; the
      * default is translatable, so the title is then never null. */
    method DialogTitle(translatable: Val -> bool) returns (r: Val)
      modifies this`dialogTitle
      ensures old(dialogTitle) != Null ==> dialogTitle == old(dialogTitle)
      ensures old(dialogTitle) == Null ==> dialogTitle == DialogTitleOf(DefaultDialogTitle(), translatable)
      ensures old(dialogTitle) == Null && translatable(DefaultDialogTitle()) ==> r == Translation(DefaultDialogTitle())
      ensures r == dialogTitle
    {
      if dialogTitle == Null {
        SetDialogTitle(DefaultDialogTitle(), translatable);
      }
      r := dialogTitle;
    }
  }

  /** Writing one editor option leaves every other option as it was. */
  lemma AddEditorOptionOnlyKey(opts: Dict<Key, Val>, ident: string, v: Val, j: Key)
    requires j != StrKey(ident)
    ensures Get(Put(opts, StrKey(ident), v), j) == Get(opts, j)
    ensures Keys(Put(opts, StrKey(ident), v)) == if StrKey(ident) in Keys(opts) then Keys(opts) else Keys(opts) + [StrKey(ident)]
  {
    PutKeys(opts, StrKey(ident), v);
  }
}
