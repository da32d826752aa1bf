/**
 * The text widget: four texts (title, subtitle, description, notes), each
 * with a flag saying whether it may be shown. A text is shown when its
 * flag is on and the text itself is truthy.
 */
module TextWidget {
  import opened Php

  /** The `show*()` rule for one text: the flag gates the text's truthiness. */
  predicate Shown(flag: bool, text: Val)
  {
    flag && Truthy(text)
  }

  /** With the default empty text nothing is shown, whatever the flag. */
  lemma EmptyNeverShown(flag: bool)
    ensures !Shown(flag, Str(""))
  {
  }

  /** A text set from translatable input is a translation object, which is
    * truthy: it is shown exactly when its flag is on. */
  lemma TranslationShownByFlag(flag: bool, source: Val)
    ensures Shown(flag, Translation(source)) <==> flag
  {
  }

  /** A cleared flag hides any text. */
  lemma ClearedFlagHides(text: Val)
    ensures !Shown(false, text)
  {
  }

  class TextWidget {
    var showTitle: bool
    var showSubtitle: bool
    var showDescription: bool
    var showNotes: bool
    var title: Val
    var subtitle: Val
    var description: Val
    var notes: Val

    /** Every flag on, every text empty: nothing is shown yet. */
    constructor ()
      ensures showTitle && showSubtitle && showDescription && showNotes
      ensures title == Str("") && subtitle == Str("") && description == Str("") && notes == Str("")
      ensures !ShowTitle() && !ShowSubtitle() && !ShowDescription() && !ShowNotes()
    {
      showTitle, showSubtitle, showDescription, showNotes := true, true, true, true;
      title, subtitle, description, notes := Str(""), Str(""), Str(""), Str("");
    }

    /** `setShowTitle()`: the argument coerced to a boolean. */
    method SetShowTitle(show: Val)
      modifies this`showTitle
      ensures showTitle == Truthy(show)
    {
      showTitle := Truthy(show);
    }

    function ShowTitle(): (r: bool)
      reads this
      ensures r ==> showTitle
      ensures r <==> Shown(showTitle, title)
    {
      showTitle && Truthy(title)
    }

    method SetShowSubtitle(show: Val)
      modifies this`showSubtitle
      ensures showSubtitle == Truthy(show)
    {
      showSubtitle := Truthy(show);
    }

    function ShowSubtitle(): (r: bool)
      reads this
      ensures r ==> showSubtitle
      ensures r <==> Shown(showSubtitle, subtitle)
    {
      showSubtitle && Truthy(subtitle)
    }

    method SetShowDescription(show: Val)
      modifies this`showDescription
      ensures showDescription == Truthy(show)
    {
      showDescription := Truthy(show);
    }

    function ShowDescription(): (r: bool)
      reads this
      ensures r ==> showDescription
      ensures r <==> Shown(showDescription, description)
    {
      showDescription && Truthy(description)
    }

    method SetShowNotes(show: Val)
      modifies this`showNotes
      ensures showNotes == Truthy(show)
    {
      showNotes := Truthy(show);
    }

    function ShowNotes(): (r: bool)
      reads this
      ensures r ==> showNotes
      ensures r <==> Shown(showNotes, notes)
    {
      showNotes && Truthy(notes)
    }

    /** `setTitle()`: only translatable input replaces the title; the title
      * is then shown exactly when its flag is on. */
    method SetTitle(t: Val, translatable: Val -> bool)
      modifies this`title
      ensures translatable(t) ==> title == Translation(t) && (ShowTitle() <==> showTitle)
      ensures !translatable(t) ==> title == old(title)
    {
      if translatable(t) {
        title := Translation(t);
      }
    }

    method SetSubtitle(t: Val, translatable: Val -> bool)
      modifies this`subtitle
      ensures translatable(t) ==> subtitle == Translation(t) && (ShowSubtitle() <==> showSubtitle)
      ensures !translatable(t) ==> subtitle == old(subtitle)
    {
      if translatable(t) {
        subtitle := Translation(t);
      }
    }

    method SetDescription(t: Val, translatable: Val -> bool)
      modifies this`description
      ensures translatable(t) ==> description == Translation(t) && (ShowDescription() <==> showDescription)
      ensures !translatable(t) ==> description == old(description)
    {
      if translatable(t) {
        description := Translation(t);
      }
    }

    method SetNotes(t: Val, translatable: Val -> bool)
      modifies this`notes
      ensures translatable(t) ==> notes == Translation(t) && (ShowNotes() <==> showNotes)
      ensures !translatable(t) ==> notes == old(notes)
    {
      if translatable(t) {
        notes := Translation(t);
      }
    }
  }
}
