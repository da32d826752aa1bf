/**
 * The object update action: the request parameters it strips from the
 * update data, and the order in which it turns a request into a status
 * code and feedback.
 */
module ObjectUpdate {
  import opened Php

  /** The parameters that address the action rather than the object. */
  const Stripped: seq<Key> := [
    StrKey("widget_id"), StrKey("widgetId"), StrKey("next_url"), StrKey("nextUrl"),
    StrKey("obj_type"), StrKey("objType"), StrKey("obj_id"), StrKey("objId")]

  /** The entries whose key is not among `ks`, in order. */
  function Strip(d: Dict<Key, Val>, ks: seq<Key>): (r: Dict<Key, Val>)
    ensures forall k :: Get(r, k) == if k in ks then None else Get(d, k)
  {
    if d == [] then []
    else if d[0].0 in ks then Strip(d[1..], ks)
    else [d[0]] + Strip(d[1..], ks)
  }

  /** `unset($d[$k0], $d[$k1], ...)`: the keys removed one after the other. */
  function RemoveAll(d: Dict<Key, Val>, ks: seq<Key>): Dict<Key, Val>
    decreases |ks|
  {
    if ks == [] then d else RemoveAll(Remove(d, ks[0]), ks[1..])
  }

  lemma {:induction false} StripNone(d: Dict<Key, Val>)
    ensures Strip(d, []) == d
  {
    if d != [] {
      StripNone(d[1..]);
    }
  }

  lemma {:induction false} RemoveStrip(d: Dict<Key, Val>, ks: seq<Key>, k: Key)
    ensures Remove(Strip(d, ks), k) == Strip(d, ks + [k])
  {
    if d != [] {
      RemoveStrip(d[1..], ks, k);
    }
  }

  /** Removing the keys one by one keeps exactly the other entries, in order. */
  lemma {:induction false} RemoveAllStrip(d: Dict<Key, Val>, pre: seq<Key>, ks: seq<Key>)
    ensures RemoveAll(Strip(d, pre), ks) == Strip(d, pre + ks)
    decreases |ks|
  {
    if ks == [] {
      assert pre + ks == pre;
    } else {
      RemoveStrip(d, pre, ks[0]);
      RemoveAllStrip(d, pre + [ks[0]], ks[1..]);
      assert pre + [ks[0]] + ks[1..] == pre + ks;
    }
  }

  /** Stripping a second time changes nothing. */
  lemma {:induction false} StripIdempotent(d: Dict<Key, Val>, ks: seq<Key>)
    ensures Strip(Strip(d, ks), ks) == Strip(d, ks)
  {
    if d != [] {
      StripIdempotent(d[1..], ks);
    }
  }

  /** Removing keys one by one is stripping them, and doing it again
    * changes nothing. */
  lemma RemoveAllSpec(d: Dict<Key, Val>, ks: seq<Key>)
    ensures RemoveAll(d, ks) == Strip(d, ks)
    ensures RemoveAll(RemoveAll(d, ks), ks) == RemoveAll(d, ks)
  {
    assert [] + ks == ks;
    StripNone(d);
    RemoveAllStrip(d, [], ks);
    var s := Strip(d, ks);
    StripNone(s);
    RemoveAllStrip(s, [], ks);
    StripIdempotent(d, ks);
  }

  /** `filterUpdateData()`. */
  function FilterUpdateData(d: Dict<Key, Val>): Dict<Key, Val>
  {
    RemoveAll(d, Stripped)
  }

  /** The filtered data lacks the eight keys, keeps every other entry in
    * order, and filtering it again changes nothing. */
  lemma FilterUpdateDataSpec(d: Dict<Key, Val>)
    ensures FilterUpdateData(d) == Strip(d, Stripped)
    ensures forall k :: Get(FilterUpdateData(d), k) == if k in Stripped then None else Get(d, k)
    ensures FilterUpdateData(FilterUpdateData(d)) == FilterUpdateData(d)
  {
    RemoveAllSpec(d, Stripped);
  }

  /** `validDataFromRequest()`: the object type and id, then the parameters
    * the base action accepts. */
  function ValidDataFromRequest(inherited: seq<string>): (r: seq<string>)
    ensures |r| == |inherited| + 2 && r[0] == "obj_type" && r[1] == "obj_id"
    ensures r[2..] == inherited
  {
    ["obj_type", "obj_id"] + inherited
  }

  /** What a call into the object returned, or the message of what it threw. */
  datatype Outcome = Returned(ok: bool) | Threw(message: string)

  /** The response `run()` hands back: the given one, or it with a status. */
  datatype Response = Unchanged | WithStatus(code: int)

  /** The messages the action reports, before translation. */
  datatype Message =
    | Required(parameter: string, expectedType: string, actualType: string)
    | InvalidData
    | UpdateFailed
    | Failure(thrown: string)
    | Updated
    | UpdatedObject(id: Val)
    | FromModel(text: string)

  datatype Feedback = Feedback(level: string, message: Message)

  /** `gettype()`, or the class of an object. */
  function TypeName(v: Val): string
  {
    match v
    case Null => "NULL"
    case Bool(_) => "boolean"
    case Int(_) => "integer"
    case Str(_) => "string"
    case Arr(_) => "array"
    case Translation(_) => "Charcoal\\Translator\\Translation"
    case Object(cls) => cls
  }

  /** The status `run()` ends with: 400 for a missing type, then for a
    * missing id, then for invalid data; 500 when the update fails or
    * anything throws; the response untouched on success. */
  function Status(objType: Val, objId: Val, valid: Outcome, updated: Outcome): (r: Response)
    ensures r == Unchanged || r == WithStatus(400) || r == WithStatus(500)
    ensures r == WithStatus(500) <==>
      Truthy(objType) && Truthy(objId) && (valid.Threw? || (valid == Returned(true) && updated != Returned(true)))
  {
    if !Truthy(objType) || !Truthy(objId) then WithStatus(400)
    else if valid.Threw? then WithStatus(500)
    else if !valid.ok then WithStatus(400)
    else if updated.Threw? || !updated.ok then WithStatus(500)
    else Unchanged
  }

  /** The request succeeds exactly when both parameters are given, the
    * data validates and the update reports success. */
  lemma StatusSuccess(objType: Val, objId: Val, valid: Outcome, updated: Outcome)
    ensures Status(objType, objId, valid, updated) == Unchanged <==>
      Truthy(objType) && Truthy(objId) && valid == Returned(true) && updated == Returned(true)
    ensures Status(objType, objId, valid, updated) != Unchanged ==>
      Status(objType, objId, valid, updated).code in {400, 500}
  {
  }

  /** A client error is reported exactly for a missing parameter or data
    * that do not validate; the update is then never attempted, so its
    * outcome does not matter. */
  lemma StatusClientError(objType: Val, objId: Val, valid: Outcome, updated: Outcome, other: Outcome)
    ensures Status(objType, objId, valid, updated) == WithStatus(400) <==>
      !Truthy(objType) || !Truthy(objId) || valid == Returned(false)
    ensures Status(objType, objId, valid, updated) == WithStatus(400) ==>
      Status(objType, objId, valid, other) == WithStatus(400)
  {
  }

  class UpdateAction {
    var updateData: Dict<Key, Val>
    var success: bool
    var feedbacks: seq<Feedback>

    constructor ()
      ensures updateData == [] && !success && feedbacks == []
    {
      updateData := [];
      success := false;
      feedbacks := [];
    }

    /** `setDataFromRequest()`: the request parameters minus the eight
      * addressing keys become the update data. */
    method SetDataFromRequest(params: Dict<Key, Val>)
      modifies this`updateData
      ensures updateData == FilterUpdateData(params)
    {
      updateData := RemoveAll(params, Stripped);
    }

    method SetUpdateData(data: Dict<Key, Val>)
      modifies this`updateData
      ensures updateData == data
    {
      updateData := data;
    }

    method GetUpdateData() returns (r: Dict<Key, Val>)
      ensures r == updateData
    {
      r := updateData;
    }

    /** `run()`. The object's validation and update are the outcomes given;
      * `modelFeedbacks` are the messages its validator holds and `id` its
      * identifier. */
    method Run(objType: Val, objId: Val, valid: Outcome, updated: Outcome,
               modelFeedbacks: seq<Feedback>, id: Val) returns (r: Response)
      modifies this`success, this`feedbacks
      ensures r == Status(objType, objId, valid, updated)
      ensures success <==> r == Unchanged
      ensures !Truthy(objType) ==>
        feedbacks == old(feedbacks) + [Feedback("error", Required("\"obj_type\"", "string", TypeName(objType)))]
      ensures Truthy(objType) && !Truthy(objId) ==>
        feedbacks == old(feedbacks) + [Feedback("error", Required("\"obj_id\"", "ID", TypeName(objId)))]
      ensures Truthy(objType) && Truthy(objId) && valid == Returned(false) ==>
        feedbacks == old(feedbacks) + (if old(feedbacks) == [] then [Feedback("error", InvalidData)] else []) + modelFeedbacks
      ensures Truthy(objType) && Truthy(objId) && valid == Returned(true) && updated == Returned(true) ==>
        feedbacks == old(feedbacks) + [Feedback("success", Updated), Feedback("success", UpdatedObject(id))]
          + Notices(modelFeedbacks)
      ensures Truthy(objType) && Truthy(objId) && valid == Returned(true) && updated == Returned(false) ==>
        feedbacks == old(feedbacks) + [Feedback("error", UpdateFailed)] + modelFeedbacks
      ensures Truthy(objType) && Truthy(objId) && (valid.Threw? || (valid == Returned(true) && updated.Threw?)) ==>
        feedbacks == old(feedbacks) + [Feedback("error", Failure(if valid.Threw? then valid.message else updated.message))]
    {
      if !Truthy(objType) {
        feedbacks := feedbacks + [Feedback("error", Required("\"obj_type\"", "string", TypeName(objType)))];
        success := false;
        return Status(objType, objId, valid, updated);
      }
      if !Truthy(objId) {
        feedbacks := feedbacks + [Feedback("error", Required("\"obj_id\"", "ID", TypeName(objId)))];
        success := false;
        return Status(objType, objId, valid, updated);
      }
      if valid.Threw? {
        feedbacks := feedbacks + [Feedback("error", Failure(valid.message))];
        success := false;
        return Status(objType, objId, valid, updated);
      }
      if !valid.ok {
        if feedbacks == [] {
          feedbacks := feedbacks + [Feedback("error", InvalidData)];
        }
        feedbacks := feedbacks + modelFeedbacks;
        success := false;
        return Status(objType, objId, valid, updated);
      }
      if updated.Threw? {
        feedbacks := feedbacks + [Feedback("error", Failure(updated.message))];
        success := false;
        return Status(objType, objId, valid, updated);
      }
      if updated.ok {
        feedbacks := feedbacks + [Feedback("success", Updated), Feedback("success", UpdatedObject(id))];
        feedbacks := feedbacks + Notices(modelFeedbacks);
        success := true;
        return Status(objType, objId, valid, updated);
      } else {
        feedbacks := feedbacks + [Feedback("error", UpdateFailed)] + modelFeedbacks;
        success := false;
        return Status(objType, objId, valid, updated);
      }
    }
  }

  /** The validator messages of level notice or warning, in order. */
  function Notices(fs: seq<Feedback>): (r: seq<Feedback>)
    ensures forall f :: f in r <==> f in fs && f.level in {"notice", "warning"}
  {
    if fs == [] then []
    else (if fs[0].level in {"notice", "warning"} then [fs[0]] else []) + Notices(fs[1..])
  }
}
