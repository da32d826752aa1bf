/**
 * The ACL permissions form group: a role's allowed and denied permission
 * lists read from its stored columns, and the tri-state classification of
 * every permission of every category.
 */
module AclPermissions {
  import opened Php
  import opened Str

  /** A stored permission column as a list: trimmed, then split on `,`. */
  function PermissionList(column: string): (r: seq<string>)
    ensures |r| >= 1
    ensures Join(r, ",") == Trim(column)
  {
    JoinSplit(Trim(column), ',');
    Split(Trim(column), ',')
  }

  /** One row of the permissions table, as the form group shows it. */
  datatype Permission = Permission(
    ident: string, name: Val,
    isDenied: bool, isUnknown: bool, isAllowed: bool,
    status: string, parentStatus: string)

  /** A permission of the loaded category, with what the admin ACL says
    * about it: whether it knows the resource and whether it allows it. */
  datatype Loaded = Loaded(ident: string, name: Val, adminHas: bool, adminAllows: bool)

  /** The classification of one permission: allowed when the role allows
    * it, else denied when the role denies it, else unknown; the parent
    * status follows the admin ACL, empty when it lacks the resource. */
  function Classify(p: Loaded, allowed: seq<string>, denied: seq<string>): (r: Permission)
    ensures r.ident == p.ident && r.name == p.name
    ensures (r.isAllowed <==> p.ident in allowed)
    ensures (r.isDenied <==> p.ident !in allowed && p.ident in denied)
    ensures (r.isUnknown <==> p.ident !in allowed && p.ident !in denied)
    ensures r.status == (if r.isAllowed then "allowed" else if r.isDenied then "denied" else "")
    ensures r.parentStatus == (if !p.adminHas then "" else if p.adminAllows then "allowed" else "denied")
  {
    var base := Permission(p.ident, p.name, false, false, false, "", "");
    var flagged :=
      if p.ident in allowed then base.(status := "allowed", isAllowed := true)
      else if p.ident in denied then base.(status := "denied", isDenied := true)
      else base.(status := "", isUnknown := true);
    flagged.(parentStatus := if p.adminHas then (if p.adminAllows then "allowed" else "denied") else "")
  }

  /** Exactly one flag is set, and the status names it. */
  lemma ClassifyOneFlag(p: Loaded, allowed: seq<string>, denied: seq<string>)
    ensures var r := Classify(p, allowed, denied);
      (r.isAllowed && !r.isDenied && !r.isUnknown && r.status == "allowed")
      || (!r.isAllowed && r.isDenied && !r.isUnknown && r.status == "denied")
      || (!r.isAllowed && !r.isDenied && r.isUnknown && r.status == "")
  {
  }

  /** A permission the role both allows and denies is allowed. */
  lemma AllowedWins(p: Loaded, allowed: seq<string>, denied: seq<string>)
    requires p.ident in allowed && p.ident in denied
    ensures Classify(p, allowed, denied).isAllowed && Classify(p, allowed, denied).status == "allowed"
  {
  }

  /** The permissions of one category, classified in loader order. */
  function Classified(ps: seq<Loaded>, allowed: seq<string>, denied: seq<string>): seq<Permission>
  {
    if ps == [] then [] else [Classify(ps[0], allowed, denied)] + Classified(ps[1..], allowed, denied)
  }

  /** One classified entry per permission, each in the permission's place. */
  lemma {:induction false} ClassifiedEntries(ps: seq<Loaded>, allowed: seq<string>, denied: seq<string>)
    ensures |Classified(ps, allowed, denied)| == |ps|
    ensures forall i :: 0 <= i < |ps| ==> Classified(ps, allowed, denied)[i] == Classify(ps[i], allowed, denied)
  {
    if ps != [] {
      ClassifiedEntries(ps[1..], allowed, denied);
      var r := Classified(ps, allowed, denied);
      forall i | 1 <= i < |ps| ensures r[i] == Classify(ps[i], allowed, denied) {
        assert r[i] == Classified(ps[1..], allowed, denied)[i - 1];
        assert ps[1..][i - 1] == ps[i];
      }
    }
  }

  /** The loop of `loadCategoryPermissions()`: one classified entry per
    * loaded permission, in loader order. */
  method ClassifyEach(ps: seq<Loaded>, allowed: seq<string>, denied: seq<string>) returns (ret: seq<Permission>)
    ensures ret == Classified(ps, allowed, denied)
  {
    ret := [];
    var i := 0;
    while i < |ps|
      invariant 0 <= i <= |ps|
      invariant |ret| == i
      invariant forall j :: 0 <= j < i ==> ret[j] == Classify(ps[j], allowed, denied)
    {
      ret := ret + [Classify(ps[i], allowed, denied)];
      i := i + 1;
    }
    ClassifiedEntries(ps, allowed, denied);
  }

  /** One category of the form group. */
  datatype Category = Category(ident: string, name: Val, permissions: seq<Permission>)

  class AclPermissionsGroup {
    /** Whether the role's lists were read (`roleAcl` is set). */
    var roleLoaded: bool
    var roleAllowed: seq<string>
    var roleDenied: seq<string>

    constructor ()
      ensures !roleLoaded && roleAllowed == [] && roleDenied == []
    {
      roleLoaded := false;
      roleAllowed := [];
      roleDenied := [];
    }

    /** `roleAcl()`: the role's columns are read on the first call only;
      * `allowedColumn` and `deniedColumn` are what the database holds. */
    method RoleAcl(allowedColumn: string, deniedColumn: string)
      modifies this`roleLoaded, this`roleAllowed, this`roleDenied
      ensures roleLoaded
      ensures old(roleLoaded) ==> roleAllowed == old(roleAllowed) && roleDenied == old(roleDenied)
      ensures !old(roleLoaded) ==>
        roleAllowed == PermissionList(allowedColumn) && roleDenied == PermissionList(deniedColumn)
    {
      if !roleLoaded {
        roleLoaded := true;
        roleAllowed := Split(Trim(allowedColumn), ',');
        roleDenied := Split(Trim(deniedColumn), ',');
      }
    }

    /** `loadCategoryPermissions()`: one classified entry per loaded
      * permission, in loader order. */
    method LoadCategoryPermissions(ps: seq<Loaded>, allowedColumn: string, deniedColumn: string)
      returns (ret: seq<Permission>)
      modifies this`roleLoaded, this`roleAllowed, this`roleDenied
      ensures roleLoaded
      ensures old(roleLoaded) ==> roleAllowed == old(roleAllowed) && roleDenied == old(roleDenied)
      ensures !old(roleLoaded) ==>
        roleAllowed == PermissionList(allowedColumn) && roleDenied == PermissionList(deniedColumn)
      ensures ret == Classified(ps, roleAllowed, roleDenied)
    {
      RoleAcl(allowedColumn, deniedColumn);
      ret := ClassifyEach(ps, roleAllowed, roleDenied);
    }

    method PermissionCategories(categories: seq<(string, Val)>, permissionsOf: string -> seq<Loaded>,
                                allowedColumn: string, deniedColumn: string)
      returns (ret: seq<Category>)
      modifies this`roleLoaded, this`roleAllowed, this`roleDenied
      ensures roleLoaded
      ensures old(roleLoaded) ==> roleAllowed == old(roleAllowed) && roleDenied == old(roleDenied)
      ensures !old(roleLoaded) ==>
        roleAllowed == PermissionList(allowedColumn) && roleDenied == PermissionList(deniedColumn)
      ensures |ret| == |categories|
      ensures forall i :: 0 <= i < |categories| ==>
        ret[i] == Category(categories[i].0, categories[i].1,
                           Classified(permissionsOf(categories[i].0), roleAllowed, roleDenied))
    {
      RoleAcl(allowedColumn, deniedColumn);
      ghost var allowed, denied := roleAllowed, roleDenied;
      ret := [];
      var i := 0;
      while i < |categories|
        invariant 0 <= i <= |categories|
        invariant roleLoaded && roleAllowed == allowed && roleDenied == denied
        invariant |ret| == i
        invariant forall j :: 0 <= j < i ==>
          ret[j] == Category(categories[j].0, categories[j].1, Classified(permissionsOf(categories[j].0), allowed, denied))
      {
        var c := categories[i];
        var perms := LoadCategoryPermissions(permissionsOf(c.0), allowedColumn, deniedColumn);
        ret := ret + [Category(c.0, c.1, perms)];
        i := i + 1;
      }
    }
  }
}
