/**
 * Tickable inputs (checkboxes and radios): the validated input layout, the
 * per-layout flags for templating, and the fields a parsed choice gets.
 */
module TickableInput {
  import opened Php

  const InlineLayout := "inline"
  const BlockLayout := "block"
  const ColumnLayout := "column"
  const GridLayout := "grid"
  const DefaultLayout := InlineLayout

  /** The layouts `setInputLayout` accepts, in display order. Column and
    * grid layouts are declared but not supported. */
  const SupportedLayouts: seq<string> := [InlineLayout, BlockLayout]

  /** `parseChoice()` after the inherited parsing: a set `type` is
    * removed (a null one stays, unset already), and the generated input id
    * is under `inputId`. Nothing else changes. */
  function ParseChoice(parsed: Fields, inputId: Val): (r: Fields)
    ensures !Has(r, "type") && ("type" in r ==> "type" in parsed && parsed["type"] == Null)
    ensures Field(r, "inputId") == inputId
    ensures forall k :: k != "type" && k != "inputId" ==> Field(r, k) == Field(parsed, k)
  {
    var c := if Has(parsed, "type") then parsed - {"type"} else parsed;
    c["inputId" := inputId]
  }

  /** The per-layout flags of `inputLayouts()`: one entry per supported
    * layout, in order, true for `current`. */
  function LayoutFlags(layouts: seq<string>, current: string): (r: seq<(Key, Val)>)
    ensures |r| == |layouts|
    ensures forall i :: 0 <= i < |layouts| ==> r[i] == (StrKey(layouts[i]), Bool(layouts[i] == current))
  {
    if layouts == [] then [] else [(StrKey(layouts[0]), Bool(layouts[0] == current))] + LayoutFlags(layouts[1..], current)
  }

  /** For a supported layout exactly one flag is true: the current one. */
  lemma OneLayoutFlag(current: string)
    requires current in SupportedLayouts
    ensures Keys(LayoutFlags(SupportedLayouts, current)) == [StrKey(InlineLayout), StrKey(BlockLayout)]
    ensures var r := LayoutFlags(SupportedLayouts, current);
      (r[0].1 == Bool(true) && r[1].1 == Bool(false)) <==> current == InlineLayout
    ensures var r := LayoutFlags(SupportedLayouts, current);
      (r[0].1 == Bool(false) && r[1].1 == Bool(true)) <==> current == BlockLayout
  {
    var r := LayoutFlags(SupportedLayouts, current);
    assert r == [(StrKey(InlineLayout), Bool(InlineLayout == current)), (StrKey(BlockLayout), Bool(BlockLayout == current))];
    assert r[1..] == [(StrKey(BlockLayout), Bool(BlockLayout == current))];
    assert InlineLayout != BlockLayout by {
      assert InlineLayout[0] != BlockLayout[0];
    }
  }

  class TickableInput {
    /** The layout; `None` while unset (PHP null). */
    var inputLayout: Option<string>

    /** The layout is unset or supported. */
    ghost predicate Valid()
      reads this
    {
      inputLayout.None? || inputLayout.value in SupportedLayouts
    }

    constructor ()
      ensures inputLayout.None? && Valid()
    {
      inputLayout := None;
    }

    /** `setInputLayout()`: null clears the layout; a non-string is an
      * `InvalidArgumentException`; a string other than a supported layout
      * an `OutOfBoundsException`; a supported layout is stored. */
    method SetInputLayout(layout: Val) returns (err: Option<Exception>)
      requires Valid()
      modifies this`inputLayout
      ensures Valid()
      ensures layout == Null ==> err.None? && inputLayout.None?
      ensures layout != Null && !layout.Str? ==> err == Some(InvalidArgument) && inputLayout == old(inputLayout)
      ensures layout.Str? && layout.s !in SupportedLayouts ==> err == Some(OutOfBounds) && inputLayout == old(inputLayout)
      ensures layout.Str? && layout.s in SupportedLayouts ==> err.None? && inputLayout == Some(layout.s)
    {
      if layout == Null {
        inputLayout := None;
        return None;
      }
      if !layout.Str? {
        return Some(InvalidArgument);
      }
      if layout.s !in SupportedLayouts {
        return Some(OutOfBounds);
      }
      inputLayout := Some(layout.s);
      err := None;
    }

    /** `inputLayout()`: the stored layout, `inline` while unset. */
    function InputLayout(): (r: string)
      reads this
      ensures Valid() ==> r in SupportedLayouts
      ensures inputLayout.None? ==> r == DefaultLayout
    {
      if inputLayout.None? then DefaultLayout else inputLayout.value
    }

    /** `inputLayouts()`: the flags of the supported layouts, built one by
      * one. */
    method InputLayouts() returns (layouts: seq<(Key, Val)>)
      requires Valid()
      ensures layouts == LayoutFlags(SupportedLayouts, InputLayout())
      ensures InputLayout() in SupportedLayouts
    {
      var supported := SupportedLayouts;
      layouts := [];
      var i := 0;
      while i < |supported|
        invariant 0 <= i <= |supported|
        invariant layouts == LayoutFlags(supported[..i], InputLayout())
      {
        assert supported[..i + 1] == supported[..i] + [supported[i]];
        LayoutFlagsAppend(supported[..i], supported[i], InputLayout());
        layouts := layouts + [(StrKey(supported[i]), Bool(supported[i] == InputLayout()))];
        i := i + 1;
      }
      assert supported[..i] == supported;
    }
  }

  lemma {:induction false} LayoutFlagsAppend(layouts: seq<string>, l: string, current: string)
    ensures LayoutFlags(layouts + [l], current) == LayoutFlags(layouts, current) + [(StrKey(l), Bool(l == current))]
  {
  }
}
