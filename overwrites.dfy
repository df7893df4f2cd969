/**
 * Resolving a document's `permissions` mapping (role name -> permission map)
 * into overwrites keyed by role id. The loop
 *
 *   for role_name, perms in data.items():
 *       role = <lookup of role_name>
 *       if role: overwrites[role] = PermissionOverwrite(**perms)
 *
 * appears in the category step of template application and in
 * `build_permission_overwrites`; the two differ only in how a name is looked
 * up, which is the `resolve` parameter here. A name that resolves to no role
 * is skipped; an unknown permission name on a resolved entry raises (None).
 * A later entry that resolves to the same role replaces the earlier one.
 */
module Overwrites {
  import opened Wrappers
  import opened Dicts
  import opened Permissions

  function Build(resolve: string -> Option<nat>, data: seq<(string, PermMap)>): (r: Option<map<nat, PermMap>>)
    decreases |data|
  {
    if data == [] then Some(map[])
    else
      match Build(resolve, data[..|data| - 1])
      case None => None
      case Some(ows) =>
        var (n, perms) := data[|data| - 1];
        match resolve(n)
        case None => Some(ows)
        case Some(rid) =>
          match NewOverwrite(perms)
          case None => None
          case Some(ow) => Some(ows[rid := ow])
  }

  /** Entry `i` is the last entry of `data` whose name resolves to role `rid`. */
  ghost predicate LastFor(resolve: string -> Option<nat>, data: seq<(string, PermMap)>, i: nat, rid: nat) {
    i < |data| && resolve(data[i].0) == Some(rid) &&
    forall j :: i < j < |data| ==> resolve(data[j].0) != Some(rid)
  }

  /**
   * The build fails exactly when a resolved entry names an unknown permission.
   * Otherwise its keys are exactly the roles some entry resolves to, and each
   * role carries the permissions of the last entry resolving to it.
   */
  lemma {:induction false} BuildSpec(resolve: string -> Option<nat>, data: seq<(string, PermMap)>)
    ensures Build(resolve, data).None? <==>
      exists i :: 0 <= i < |data| && resolve(data[i].0).Some? && !AllPermissions(data[i].1)
    ensures Build(resolve, data).Some? ==>
      forall rid :: rid in Build(resolve, data).value <==>
        exists i :: 0 <= i < |data| && resolve(data[i].0) == Some(rid)
    ensures Build(resolve, data).Some? ==>
      forall i: nat, rid: nat :: LastFor(resolve, data, i, rid) ==> Build(resolve, data).value[rid] == data[i].1
  {
    if data != [] {
      var init := data[..|data| - 1];
      BuildSpec(resolve, init);
      var last := |data| - 1;
      var r := Build(resolve, data);
      if r.Some? {
        var ows := Build(resolve, init).value;
        forall i: nat, rid: nat | LastFor(resolve, data, i, rid) ensures r.value[rid] == data[i].1 {
          if i < last {
            assert LastFor(resolve, init, i, rid);
          }
        }
      }
    }
  }

  /** The loop itself: fills `overwrites` entry by entry, stopping at the first entry that raises. */
  method BuildOverwrites(resolve: string -> Option<nat>, data: seq<(string, PermMap)>)
    returns (r: Option<map<nat, PermMap>>)
    ensures r == Build(resolve, data)
  {
    var ows: map<nat, PermMap> := map[];
    var i := 0;
    while i < |data|
      invariant 0 <= i <= |data|
      invariant Build(resolve, data[..i]) == Some(ows)
    {
      assert data[..i + 1][..i] == data[..i];
      var (n, perms) := data[i];
      var rid := resolve(n);
      if rid.Some? {
        var ow := NewOverwrite(perms);
        if ow.None? {
          BuildStops(resolve, data, i + 1);
          return None;
        }
        ows := ows[rid.value := ow.value];
      }
      i := i + 1;
    }
    assert data[..i] == data;
    r := Some(ows);
  }

  lemma {:induction false} BuildStops(resolve: string -> Option<nat>, data: seq<(string, PermMap)>, i: nat)
    requires i <= |data| && Build(resolve, data[..i]).None?
    ensures Build(resolve, data).None?
    decreases |data| - i
  {
    if i < |data| {
      assert data[..i + 1][..i] == data[..i];
      BuildStops(resolve, data, i + 1);
    } else {
      assert data[..i] == data;
    }
  }
}
