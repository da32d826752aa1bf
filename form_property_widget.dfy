/**
 * The form property widget: the settings of one property's form control
 * (widget type, input type, property ident and value, active flag), set
 * from a data array, and the input type resolved from the property's
 * metadata when none was set.
 */
module FormPropertyWidget {
  import opened Php

  /** The input used when the property's metadata names none. */
  const DefaultInputType := "charcoal/admin/property/input/text"

  /** The input type the metadata names: `admin.input_type` when `admin` is
    * set, else the empty string. */
  function MetadataInputType(metadata: Val): Val
  {
    if IsSet(metadata, "admin") then At(At(metadata, "admin"), "input_type") else Str("")
  }

  /** The input type `input_type()` computes when none is stored: the one
    * the metadata names when truthy, the text input otherwise (also when
    * loading the property or its metadata throws). */
  function ResolvedInputType(metadata: Result<Val>): (r: Val)
    ensures Truthy(r)
    ensures r == Str(DefaultInputType) || (metadata.Ok? && r == MetadataInputType(metadata.value))
    ensures metadata.Ok? && Truthy(MetadataInputType(metadata.value)) ==> r == MetadataInputType(metadata.value)
    ensures metadata.Err? ==> r == Str(DefaultInputType)
  {
    var t := if metadata.Ok? then MetadataInputType(metadata.value) else Str(DefaultInputType);
    if !Truthy(t) then Str(DefaultInputType) else t
  }

  /** Metadata without an `admin` entry resolves to the text input. */
  lemma NoAdminMetadataIsText(metadata: Val)
    requires !IsSet(metadata, "admin")
    ensures ResolvedInputType(Ok(metadata)) == Str(DefaultInputType)
  {
  }

  class FormPropertyWidget {
    var widgetType: Val
    var inputType: Val
    var propertyIdent: Val
    var propertyVal: Val
    var propertyData: Fields
    var active: bool

    constructor ()
      ensures widgetType == Null && inputType == Null && propertyIdent == Null && propertyVal == Null
      ensures propertyData == map[] && active
    {
      widgetType, inputType, propertyIdent, propertyVal := Null, Null, Null, Null;
      propertyData := map[];
      active := true;
    }

    /** `set_active()`: only a boolean is accepted. */
    method SetActive(v: Val) returns (err: Option<Exception>)
      modifies this`active
      ensures v.Bool? <==> err.None?
      ensures err.Some? ==> err == Some(InvalidArgument) && active == old(active)
      ensures v.Bool? ==> active == v.b
    {
      if !v.Bool? {
        return Some(InvalidArgument);
      }
      active := v.b;
      err := None;
    }

    /** `set_property_ident()`: only a string is accepted. */
    method SetPropertyIdent(v: Val) returns (err: Option<Exception>)
      modifies this`propertyIdent
      ensures v.Str? <==> err.None?
      ensures err.Some? ==> err == Some(InvalidArgument) && propertyIdent == old(propertyIdent)
      ensures v.Str? ==> propertyIdent == v
    {
      if !v.Str? {
        return Some(InvalidArgument);
      }
      propertyIdent := v;
      err := None;
    }

    /** `set_data()`: each of `type`, `input_type`, `property_ident`,
      * `property_val` and `active` is applied, in that order, only when
      * present and non-null; then the whole data is kept. A rejected ident
      * or active flag throws, leaving the later settings and the copy
      * unapplied. */
    method SetData(data: Fields) returns (err: Option<Exception>)
      modifies this`widgetType, this`inputType, this`propertyIdent, this`propertyVal, this`active, this`propertyData
      ensures widgetType == (if Has(data, "type") then data["type"] else old(widgetType))
      ensures inputType == (if Has(data, "input_type") then data["input_type"] else old(inputType))
      ensures Has(data, "property_ident") && !data["property_ident"].Str? ==>
        err == Some(InvalidArgument) && propertyIdent == old(propertyIdent) && propertyVal == old(propertyVal)
        && active == old(active) && propertyData == old(propertyData)
      ensures !(Has(data, "property_ident") && !data["property_ident"].Str?) ==>
        propertyIdent == (if Has(data, "property_ident") then data["property_ident"] else old(propertyIdent))
        && propertyVal == (if Has(data, "property_val") then data["property_val"] else old(propertyVal))
      ensures !(Has(data, "property_ident") && !data["property_ident"].Str?) && Has(data, "active") && !data["active"].Bool? ==>
        err == Some(InvalidArgument) && active == old(active) && propertyData == old(propertyData)
      ensures err.None? <==> (!Has(data, "property_ident") || data["property_ident"].Str?) && (!Has(data, "active") || data["active"].Bool?)
      ensures err.None? ==> active == (if Has(data, "active") then data["active"].b else old(active)) && propertyData == data
    {
      if Has(data, "type") {
        widgetType := data["type"];
      }
      if Has(data, "input_type") {
        SetInputType(data["input_type"]);
      }
      if Has(data, "property_ident") {
        err := SetPropertyIdent(data["property_ident"]);
        if err.Some? {
          return;
        }
      }
      if Has(data, "property_val") {
        propertyVal := data["property_val"];
      }
      if Has(data, "active") {
        err := SetActive(data["active"]);
        if err.Some? {
          return;
        }
      }
      propertyData := data;
      err := None;
    }

    method SetInputType(t: Val)
      modifies this`inputType
      ensures inputType == t
    {
      inputType := t;
    }

    /** `input_type()`: a stored input type is returned as is; otherwise it
      * is resolved from the metadata, stored, and never null again. */
    method InputType(metadata: Result<Val>) returns (r: Val)
      modifies this`inputType
      ensures old(inputType) != Null ==> r == old(inputType)
      ensures old(inputType) == Null ==> r == ResolvedInputType(metadata) && Truthy(r)
      ensures inputType == r && r != Null
    {
      if inputType == Null {
        inputType := ResolvedInputType(metadata);
      }
      r := inputType;
    }
  }
}
