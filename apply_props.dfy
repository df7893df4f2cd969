/**
 * What template application promises, proved about the walks of module
 * Apply: existing roles and channels are reused rather than created again,
 * failures are contained, the include flags filter what is created, and a
 * channel's overwrites start from its category's and change one permission
 * key at a time.
 */
module ApplyProperties {
  import opened Wrappers
  import opened Seqs
  import opened Permissions
  import opened Guilds
  import opened Documents
  import opened Overwrites
  import opened Apply

  // ---------------------------------------------------------------- roles

  /** The number of roles named `n`. */
  function Named(roles: seq<Role>, n: string): nat {
    if roles == [] then 0 else (if roles[0].name == n then 1 else 0) + Named(roles[1..], n)
  }

  lemma {:induction false} NamedConcat(a: seq<Role>, b: seq<Role>, n: string)
    ensures Named(a + b, n) == Named(a, n) + Named(b, n)
  {
    if a != [] {
      assert (a + b)[1..] == a[1..] + b;
      NamedConcat(a[1..], b, n);
    } else {
      assert a + b == b;
    }
  }

  lemma {:induction false} NamedAbsent(roles: seq<Role>, n: string)
    requires FindRole(roles, n).None?
    ensures Named(roles, n) == 0
  {
    if roles != [] {
      NamedAbsent(roles[1..], n);
    }
  }

  /** A created role adds one role of its name and keeps every other role. */
  lemma CreateRoleCounts(g: GuildState, name: string, color: int, perms: set<string>, hoist: bool, mentionable: bool,
                         n: string)
    requires CreateRoleF(g, name, color, perms, hoist, mentionable).Some?
    ensures Named(CreateRoleF(g, name, color, perms, hoist, mentionable).value.0.roles, n) ==
      Named(g.roles, n) + if n == name then 1 else 0
  {
    var k := if |g.roles| == 0 then 0 else 1;
    var role := Role(g.nextId, name, color, hoist, mentionable, perms, false);
    var roles := CreateRoleF(g, name, color, perms, hoist, mentionable).value.0.roles;
    assert roles == g.roles[..k] + [role] + g.roles[k..];
    assert g.roles == g.roles[..k] + g.roles[k..];
    NamedConcat(g.roles[..k] + [role], g.roles[k..], n);
    NamedConcat(g.roles[..k], [role], n);
    NamedConcat(g.roles[..k], g.roles[k..], n);
    assert [role][1..] == [];
  }

  /** The role walk touches nothing but the roles, and removes none. */
  predicate RolesOnly(g: GuildState, g': GuildState) {
    && g'.categories == g.categories && g'.channels == g.channels
    && g'.id == g.id && g'.name == g.name && g'.rejects == g.rejects
    && forall r :: r in g.roles ==> r in g'.roles
  }

  /** One role step either leaves the count of a name alone or creates the first role of that name. */
  lemma RoleStepEffect(q: Progress, spec: RoleDoc, n: string)
    requires !q.aborted
    ensures RolesOnly(q.g, RoleStep(q, spec).g)
    ensures var s := RoleStep(q, spec);
      Named(s.g.roles, n) == Named(q.g.roles, n) || (Named(q.g.roles, n) == 0 && Named(s.g.roles, n) == 1)
  {
    var s := RoleStep(q, spec);
    if spec.name.Some? && FindRole(q.g.roles, spec.name.value).None? && s.g != q.g {
      var m := spec.name.value;
      var c := TemplateColor(spec.color).value;
      var perms := Granted(spec.permissions.GetOr(map[]));
      var hoist, mentionable := spec.hoist.GetOr(false), spec.mentionable.GetOr(false);
      CreateRoleCounts(q.g, m, c, perms, hoist, mentionable, n);
      NamedAbsent(q.g.roles, m);
    }
  }

  /**
   * A name some role already holds is never created again (its count stays),
   * and the walk creates at most one role of any other name. Categories and
   * channels are untouched and no role is removed.
   */
  lemma {:induction false} RolesWalkReuses(p: Progress, specs: seq<RoleDoc>, n: string)
    ensures RolesOnly(p.g, RolesWalk(p, specs).g)
    ensures Named(p.g.roles, n) > 0 ==> Named(RolesWalk(p, specs).g.roles, n) == Named(p.g.roles, n)
    ensures Named(p.g.roles, n) == 0 ==> Named(RolesWalk(p, specs).g.roles, n) <= 1
  {
    if specs != [] {
      var q := RolesWalk(p, specs[..|specs| - 1]);
      RolesWalkReuses(p, specs[..|specs| - 1], n);
      if !q.aborted {
        RoleStepEffect(q, specs[|specs| - 1], n);
      }
    }
  }

  /** A role step stops the walk exactly when the role has no name. */
  lemma RoleStepAborts(q: Progress, spec: RoleDoc)
    requires !q.aborted
    ensures RoleStep(q, spec).aborted <==> spec.name.None?
  {
  }

  /**
   * Only a role without a name stops the walk: a role whose creation fails is
   * skipped and the roles after it are still processed.
   */
  lemma {:induction false} RolesWalkAborts(p: Progress, specs: seq<RoleDoc>)
    requires !p.aborted
    ensures RolesWalk(p, specs).aborted <==> exists i :: 0 <= i < |specs| && specs[i].name.None?
  {
    if specs != [] {
      RolesWalkAborts(p, specs[..|specs| - 1]);
      RolesWalkLastAborts(p, specs);
      UnnamedRoleSnoc(specs, specs[..|specs| - 1]);
    }
  }

  /** The role walk stops at its last role exactly when that one has no name. */
  lemma RolesWalkLastAborts(p: Progress, specs: seq<RoleDoc>)
    requires specs != []
    ensures RolesWalk(p, specs).aborted <==>
      RolesWalk(p, specs[..|specs| - 1]).aborted || specs[|specs| - 1].name.None?
  {
    var q := RolesWalk(p, specs[..|specs| - 1]);
    if !q.aborted {
      RoleStepAborts(q, specs[|specs| - 1]);
    }
  }

  /** Some role lacks a name exactly when one before the last does or the last does. */
  lemma UnnamedRoleSnoc(specs: seq<RoleDoc>, init: seq<RoleDoc>)
    requires specs != [] && init == specs[..|specs| - 1]
    ensures (exists i :: 0 <= i < |specs| && specs[i].name.None?) <==>
      (exists i :: 0 <= i < |init| && init[i].name.None?) || specs[|specs| - 1].name.None?
  {
    if exists i :: 0 <= i < |init| && init[i].name.None? {
      var i :| 0 <= i < |init| && init[i].name.None?;
      PrefixAt(specs, |specs| - 1, i);
    } else {
      forall i | 0 <= i < |init| ensures specs[i].name.Some? {
        PrefixAt(specs, |specs| - 1, i);
      }
    }
  }

  /** `role_objects` maps every name to the id of a guild role of that name. */
  ghost predicate ObjsValid(objs: map<string, nat>, roles: seq<Role>) {
    forall n :: n in objs ==> exists r :: r in roles && r.name == n && r.id == objs[n]
  }

  /** One role step keeps `role_objects` valid and records at most the step's own name. */
  lemma RoleStepObjs(q: Progress, spec: RoleDoc)
    requires !q.aborted && ObjsValid(q.objs, q.g.roles)
    ensures ObjsValid(RoleStep(q, spec).objs, RoleStep(q, spec).g.roles)
    ensures forall n :: n in RoleStep(q, spec).objs ==> n in q.objs || spec.name == Some(n)
  {
    var s := RoleStep(q, spec);
    RoleStepEffect(q, spec, "");
    forall n | n in s.objs ensures exists r :: r in s.g.roles && r.name == n && r.id == s.objs[n] {
      if spec.name == Some(n) && FindRole(q.g.roles, n).Some? {
        assert FindRole(q.g.roles, n).value in s.g.roles;
      } else if spec.name == Some(n) && s.g != q.g {
        var c := TemplateColor(spec.color).value;
        var perms := Granted(spec.permissions.GetOr(map[]));
        var created := CreateRoleF(q.g, n, c, perms, spec.hoist.GetOr(false), spec.mentionable.GetOr(false)).value;
        var role := Role(created.1, n, c, spec.hoist.GetOr(false), spec.mentionable.GetOr(false), perms, false);
        assert role in multiset(created.0.roles);
      } else {
        var r :| r in q.g.roles && r.name == n && r.id == q.objs[n];
        assert r in s.g.roles;
      }
    }
  }

  /**
   * Every entry the role walk records in `role_objects` is a role of the
   * guild with that name, whether it was reused or created; and the names
   * recorded are names of the walked roles.
   */
  lemma {:induction false} RolesWalkObjs(p: Progress, specs: seq<RoleDoc>)
    requires ObjsValid(p.objs, p.g.roles)
    ensures ObjsValid(RolesWalk(p, specs).objs, RolesWalk(p, specs).g.roles)
    ensures forall n :: n in RolesWalk(p, specs).objs ==>
      n in p.objs || exists i :: 0 <= i < |specs| && specs[i].name == Some(n)
  {
    if specs != [] {
      var init := specs[..|specs| - 1];
      var q := RolesWalk(p, init);
      RolesWalkObjs(p, init);
      if !q.aborted {
        var s := RoleStep(q, specs[|specs| - 1]);
        RoleStepObjs(q, specs[|specs| - 1]);
        forall n | n in s.objs ensures n in p.objs || exists i :: 0 <= i < |specs| && specs[i].name == Some(n) {
          if n in q.objs {
            if n !in p.objs {
              var i :| 0 <= i < |init| && init[i].name == Some(n);
              assert specs[i] == init[i];
            }
          } else {
            assert specs[|specs| - 1].name == Some(n);
          }
        }
      }
    }
  }

  /**
   * The converse of reuse: a named role the guild does not have yet, whose
   * colour parses and whose creation the remote accepts, is created with the
   * template's colour, permissions, hoist and mentionable settings, becomes
   * the only role of its name, and is recorded in `role_objects`.
   */
  lemma RoleStepCreates(q: Progress, spec: RoleDoc)
    requires !q.aborted && spec.name.Some? && FindRole(q.g.roles, spec.name.value).None? && Creatable(q.g, spec)
    ensures var s := RoleStep(q, spec); var n := spec.name.value;
      && !s.aborted
      && Named(s.g.roles, n) == 1
      && s.objs == q.objs[n := q.g.nextId]
      && Role(q.g.nextId, n, TemplateColor(spec.color).value, spec.hoist.GetOr(false), spec.mentionable.GetOr(false),
              Granted(spec.permissions.GetOr(map[])), false) in s.g.roles
  {
    var n := spec.name.value;
    var c := TemplateColor(spec.color).value;
    var perms := Granted(spec.permissions.GetOr(map[]));
    var hoist, mentionable := spec.hoist.GetOr(false), spec.mentionable.GetOr(false);
    CreateRoleCounts(q.g, n, c, perms, hoist, mentionable, n);
    NamedAbsent(q.g.roles, n);
    var created := CreateRoleF(q.g, n, c, perms, hoist, mentionable).value;
    assert Role(q.g.nextId, n, c, hoist, mentionable, perms, false) in multiset(created.0.roles);
  }

  /** A role step keeps every role and every `role_objects` entry name it had. */
  lemma RoleStepKeeps(q: Progress, spec: RoleDoc)
    requires !q.aborted
    ensures forall r :: r in q.g.roles ==> r in RoleStep(q, spec).g.roles
    ensures forall m :: m in q.objs ==> m in RoleStep(q, spec).objs
    ensures RoleStep(q, spec).g.rejects == q.g.rejects
  {
    RoleStepEffect(q, spec, "");
  }

  /** `role_objects` holds `n`, and the guild has a role named `n`. */
  predicate Provided(w: Progress, n: string) {
    n in w.objs && FindRole(w.g.roles, n).Some?
  }

  /**
   * Every named role of the template is in the guild after the walk, and
   * `role_objects` holds its name: reused when a role of that name existed,
   * created otherwise. The exceptions are a walk an unnamed role aborted and
   * a role the remote would refuse (colour or name rejected).
   */
  lemma {:induction false} RolesWalkProvides(p: Progress, specs: seq<RoleDoc>, i: nat)
    requires !p.aborted && i < |specs| && specs[i].name.Some? && Creatable(p.g, specs[i])
    requires !RolesWalk(p, specs).aborted
    ensures Provided(RolesWalk(p, specs), specs[i].name.value)
  {
    var k := |specs| - 1;
    RolesWalkLast(p, specs);
    if i < k {
      PrefixAt(specs, k, i);
      RolesWalkProvides(p, specs[..k], i);
      RoleStepKeepsProvided(RolesWalk(p, specs[..k]), specs[k], specs[i].name.value);
    } else {
      assert i == k;
      RolesWalkReuses(p, specs[..k], "");
      CreatableKept(p.g, RolesWalk(p, specs[..k]).g, specs[k]);
      RoleStepProvides(RolesWalk(p, specs[..k]), specs[k]);
    }
  }

  /** A walk that completes is its last step applied to the walk of the roles before it. */
  lemma RolesWalkLast(p: Progress, specs: seq<RoleDoc>)
    requires specs != [] && !RolesWalk(p, specs).aborted
    ensures var q := RolesWalk(p, specs[..|specs| - 1]);
      !q.aborted && RolesWalk(p, specs) == RoleStep(q, specs[|specs| - 1])
  {
  }

  /** Whether the remote accepts a role depends only on the refused names. */
  lemma CreatableKept(g: GuildState, g': GuildState, spec: RoleDoc)
    requires spec.name.Some? && Creatable(g, spec) && g'.rejects == g.rejects
    ensures Creatable(g', spec)
  {
  }

  /** A named role the remote accepts is in `role_objects` and the guild after its own step. */
  lemma RoleStepProvides(q: Progress, spec: RoleDoc)
    requires !q.aborted && spec.name.Some? && Creatable(q.g, spec)
    ensures Provided(RoleStep(q, spec), spec.name.value)
  {
    match FindRole(q.g.roles, spec.name.value)
    case Some(existing) =>
      RoleStepKeeps(q, spec);
    case None =>
      RoleStepCreates(q, spec);
  }

  /** A later role step keeps a name that is already provided. */
  lemma RoleStepKeepsProvided(q: Progress, spec: RoleDoc, n: string)
    requires !q.aborted && Provided(q, n)
    ensures Provided(RoleStep(q, spec), n)
  {
    RoleStepKeeps(q, spec);
    var r := FindRole(q.g.roles, n).value;
    assert r in RoleStep(q, spec).g.roles;
  }

  // ------------------------------------------------------------- channels

  /** The number of channels named `n` in the category with id `cid`. */
  function NamedIn(chans: seq<Channel>, cid: nat, n: string): nat {
    if chans == [] then 0
    else
      var c := chans[|chans| - 1];
      NamedIn(chans[..|chans| - 1], cid, n) + if c.parent == Some(cid) && c.name == n then 1 else 0
  }

  lemma {:induction false} NamedInAbsent(chans: seq<Channel>, cid: nat, n: string)
    requires FindChannelIn(chans, cid, n).None?
    ensures NamedIn(chans, cid, n) == 0
  {
    if chans != [] {
      var init := chans[..|chans| - 1];
      assert forall i :: 0 <= i < |init| ==> init[i] == chans[i];
      NamedInAbsent(init, cid, n);
    }
  }

  lemma NamedInAppend(chans: seq<Channel>, c: Channel, cid: nat, n: string)
    ensures NamedIn(chans + [c], cid, n) == NamedIn(chans, cid, n) + if c.parent == Some(cid) && c.name == n then 1 else 0
  {
    assert (chans + [c])[..|chans|] == chans;
  }

  /** A channel the include flags let through, placed in the category with id `cid`. */
  predicate Allowed(inc: Include, cid: nat, c: Channel) {
    c.parent == Some(cid) && (c.kind.TextKind? ==> inc.text) && (c.kind.VoiceKind? ==> inc.voice)
  }

  /** The guild apart from its channels and its id counter. */
  predicate SameButChannels(g: GuildState, g': GuildState) {
    g'.roles == g.roles && g'.categories == g.categories && g'.id == g.id && g'.name == g.name && g'.rejects == g.rejects
  }

  /**
   * One channel step creates nothing or appends one channel that the flags
   * allow and whose name is new to the category.
   */
  lemma ChannelStepEffect(objs: map<string, nat>, inc: Include, cid: nat, p: CatProgress, spec: ChannelDoc)
    requires !p.abandoned
    ensures var s := ChannelStep(objs, inc, cid, p, spec);
      && SameButChannels(p.g, s.g)
      && (s.g.channels == p.g.channels ||
          exists c :: s.g.channels == p.g.channels + [c] && Allowed(inc, cid, c) && NamedIn(p.g.channels, cid, c.name) == 0)
  {
    var s := ChannelStep(objs, inc, cid, p, spec);
    if s.g.channels != p.g.channels {
      var n := spec.name.value;
      NamedInAbsent(p.g.channels, cid, n);
      var t := ChannelOverwrites(objs, p.g.roles, Tweak(p.shared, p.shared), spec.permissions.GetOr([])).value;
      var k := NewChannelKind(spec).value;
      assert s.g.channels == p.g.channels + [Channel(p.g.nextId, n, k, Some(cid), t.channel)];
    }
  }

  /**
   * The converse: a named channel new to its category, of a known type the
   * flags let through (forum channels always are), whose overwrites resolve
   * and whose creation the remote accepts, is created with those overwrites.
   */
  lemma ChannelStepCreates(objs: map<string, nat>, inc: Include, cid: nat, p: CatProgress, spec: ChannelDoc)
    requires !p.abandoned && spec.name.Some? && FindChannelIn(p.g.channels, cid, spec.name.value).None?
    requires !Filtered(inc, KindOf(spec)) && NewChannelKind(spec).Some? && spec.name.value !in p.g.rejects
    requires ChannelOverwrites(objs, p.g.roles, Tweak(p.shared, p.shared), spec.permissions.GetOr([])).Some?
    ensures var t := ChannelOverwrites(objs, p.g.roles, Tweak(p.shared, p.shared), spec.permissions.GetOr([])).value;
      var s := ChannelStep(objs, inc, cid, p, spec);
      !s.abandoned && s.shared == t.shared &&
      s.g.channels == p.g.channels + [Channel(p.g.nextId, spec.name.value, NewChannelKind(spec).value, Some(cid), t.channel)]
  {
  }

  /** What the channel walk promises of the channels `q` it has reached from `p`. */
  predicate Extends(inc: Include, cid: nat, p: seq<Channel>, q: seq<Channel>, n: string) {
    && |p| <= |q| && q[..|p|] == p
    && (forall k :: |p| <= k < |q| ==> Allowed(inc, cid, q[k]))
    && (NamedIn(p, cid, n) > 0 ==> NamedIn(q, cid, n) == NamedIn(p, cid, n))
    && (NamedIn(p, cid, n) == 0 ==> NamedIn(q, cid, n) <= 1)
  }

  /** Appending an allowed channel whose name is new to the category keeps the promise. */
  lemma ExtendsAppend(inc: Include, cid: nat, p: seq<Channel>, q: seq<Channel>, c: Channel, n: string)
    requires Extends(inc, cid, p, q, n) && Allowed(inc, cid, c) && NamedIn(q, cid, c.name) == 0
    ensures Extends(inc, cid, p, q + [c], n)
  {
    NamedInAppend(q, c, cid, n);
    assert (q + [c])[..|p|] == q[..|p|];
  }

  /**
   * Within a category, the channel walk only appends channels the flags
   * allow, never creates a channel whose name the category already has, and
   * creates at most one channel of any other name. Roles and categories are
   * untouched.
   */
  lemma {:induction false} ChannelsWalkEffect(objs: map<string, nat>, inc: Include, cid: nat, p: CatProgress,
                                              specs: seq<ChannelDoc>, n: string)
    ensures var q := ChannelsWalk(objs, inc, cid, p, specs);
      SameButChannels(p.g, q.g) && Extends(inc, cid, p.g.channels, q.g.channels, n)
  {
    if specs == [] {
      assert p.g.channels[..|p.g.channels|] == p.g.channels;
    } else {
      var q := ChannelsWalk(objs, inc, cid, p, specs[..|specs| - 1]);
      ChannelsWalkEffect(objs, inc, cid, p, specs[..|specs| - 1], n);
      if !q.abandoned {
        var s := ChannelStep(objs, inc, cid, q, specs[|specs| - 1]);
        ChannelStepEffect(objs, inc, cid, q, specs[|specs| - 1]);
        if s.g.channels != q.g.channels {
          var c :| s.g.channels == q.g.channels + [c] && Allowed(inc, cid, c) && NamedIn(q.g.channels, cid, c.name) == 0;
          ExtendsAppend(inc, cid, p.g.channels, q.g.channels, c, n);
        }
      }
    }
  }

  // ------------------------------------------------------- the whole walk

  lemma {:induction false} CategoriesWalkKeepsRoles(objs: map<string, nat>, inc: Include, g: GuildState,
                                                    specs: seq<CategoryDoc>)
    ensures CategoriesWalk(objs, inc, g, specs).0.roles == g.roles
  {
    if specs != [] {
      var init := specs[..|specs| - 1];
      CategoriesWalkKeepsRoles(objs, inc, g, init);
      var (g1, aborted) := CategoriesWalk(objs, inc, g, init);
      if !aborted {
        var spec := specs[|specs| - 1];
        var ows := Build(Resolver(objs, g1.roles), spec.permissions.GetOr([]));
        if spec.name.Some? && ows.Some? {
          match FindCategory(g1.categories, spec.name.value)
          case Some(c) =>
            if SetPermissionsF(g1, c, ows.value).Some? {
              var g2 := SetPermissionsF(g1, c, ows.value).value;
              ChannelsWalkEffect(objs, inc, c.id, CatProgress(g2, ows.value, false), ChannelsOf(spec), "");
            }
          case None =>
            if CreateCategoryF(g1, spec.name.value, ows.value).Some? {
              var (g2, cid) := CreateCategoryF(g1, spec.name.value, ows.value).value;
              ChannelsWalkEffect(objs, inc, cid, CatProgress(g2, ows.value, false), ChannelsOf(spec), "");
            }
        }
      }
    }
  }

  /** A category step aborts the walk exactly when the category has no name. */
  lemma CategoryStepAborts(objs: map<string, nat>, inc: Include, g: GuildState, spec: CategoryDoc)
    ensures CategoryStep(objs, inc, g, spec).1 <==> spec.name.None?
  {
  }

  /**
   * Only a category without a name stops the walk: a category whose
   * overwrites, creation, update or channels fail is abandoned and the
   * categories after it are still processed.
   */
  lemma {:induction false} CategoriesWalkAborts(objs: map<string, nat>, inc: Include, g: GuildState,
                                                specs: seq<CategoryDoc>)
    ensures CategoriesWalk(objs, inc, g, specs).1 <==> exists i :: 0 <= i < |specs| && specs[i].name.None?
  {
    if specs != [] {
      CategoriesWalkAborts(objs, inc, g, specs[..|specs| - 1]);
      CategoriesWalkLastAborts(objs, inc, g, specs);
      UnnamedCategorySnoc(specs, specs[..|specs| - 1]);
    }
  }

  /** Some category lacks a name exactly when one before the last does or the last does. */
  lemma UnnamedCategorySnoc(specs: seq<CategoryDoc>, init: seq<CategoryDoc>)
    requires specs != [] && init == specs[..|specs| - 1]
    ensures (exists i :: 0 <= i < |specs| && specs[i].name.None?) <==>
      (exists i :: 0 <= i < |init| && init[i].name.None?) || specs[|specs| - 1].name.None?
  {
    if exists i :: 0 <= i < |init| && init[i].name.None? {
      var i :| 0 <= i < |init| && init[i].name.None?;
      PrefixAt(specs, |specs| - 1, i);
    } else {
      forall i | 0 <= i < |init| ensures specs[i].name.Some? {
        PrefixAt(specs, |specs| - 1, i);
      }
    }
  }

  /** The category walk stops at its last category exactly when that one has no name. */
  lemma CategoriesWalkLastAborts(objs: map<string, nat>, inc: Include, g: GuildState, specs: seq<CategoryDoc>)
    requires specs != []
    ensures CategoriesWalk(objs, inc, g, specs).1 <==>
      CategoriesWalk(objs, inc, g, specs[..|specs| - 1]).1 || specs[|specs| - 1].name.None?
  {
    CategoryStepAborts(objs, inc, CategoriesWalk(objs, inc, g, specs[..|specs| - 1]).0, specs[|specs| - 1]);
  }

  /** The number of categories named `n`. */
  function CategoriesNamed(cats: seq<Category>, n: string): nat {
    if cats == [] then 0
    else CategoriesNamed(cats[..|cats| - 1], n) + if cats[|cats| - 1].name == n then 1 else 0
  }

  lemma {:induction false} CategoriesNamedAbsent(cats: seq<Category>, n: string)
    requires FindCategory(cats, n).None?
    ensures CategoriesNamed(cats, n) == 0
  {
    if cats != [] {
      var init := cats[..|cats| - 1];
      forall i | 0 <= i < |init| ensures init[i].name != n {
        PrefixAt(cats, |cats| - 1, i);
      }
      CategoriesNamedAbsent(init, n);
    }
  }

  lemma CategoriesNamedAppend(cats: seq<Category>, c: Category, n: string)
    ensures CategoriesNamed(cats + [c], n) == CategoriesNamed(cats, n) + if c.name == n then 1 else 0
  {
    assert (cats + [c])[..|cats|] == cats;
  }

  /** Setting overwrites renames nothing. */
  lemma {:induction false} CategoriesNamedOverwrites(cats: seq<Category>, cid: nat, ows: map<nat, PermMap>, n: string)
    ensures CategoriesNamed(WithOverwrites(cats, cid, ows), n) == CategoriesNamed(cats, n)
  {
    if cats != [] {
      var k := |cats| - 1;
      var r := WithOverwrites(cats, cid, ows);
      assert r[..k] == WithOverwrites(cats[..k], cid, ows);
      CategoriesNamedOverwrites(cats[..k], cid, ows, n);
    }
  }

  /** One category step either leaves the count of a name alone or creates the first category of that name. */
  lemma CategoryStepNames(objs: map<string, nat>, inc: Include, g: GuildState, spec: CategoryDoc, n: string)
    ensures var g' := CategoryStep(objs, inc, g, spec).0;
      CategoriesNamed(g'.categories, n) == CategoriesNamed(g.categories, n) ||
      (CategoriesNamed(g.categories, n) == 0 && CategoriesNamed(g'.categories, n) == 1)
  {
    var ows := Build(Resolver(objs, g.roles), spec.permissions.GetOr([]));
    if spec.name.Some? && ows.Some? {
      match FindCategory(g.categories, spec.name.value)
      case Some(c) =>
        if SetPermissionsF(g, c, ows.value).Some? {
          var g1 := SetPermissionsF(g, c, ows.value).value;
          if ows.value != map[] {
            CategoriesNamedOverwrites(g.categories, c.id, ows.value, n);
          }
          ChannelsWalkEffect(objs, inc, c.id, CatProgress(g1, ows.value, false), ChannelsOf(spec), "");
        }
      case None =>
        if CreateCategoryF(g, spec.name.value, ows.value).Some? {
          var (g1, cid) := CreateCategoryF(g, spec.name.value, ows.value).value;
          CategoriesNamedAppend(g.categories, Category(cid, spec.name.value, ows.value), n);
          CategoriesNamedAbsent(g.categories, spec.name.value);
          ChannelsWalkEffect(objs, inc, cid, CatProgress(g1, ows.value, false), ChannelsOf(spec), "");
        }
    }
  }

  /**
   * A category name the guild already has is never created again (its count
   * stays), and the walk creates at most one category of any other name.
   */
  lemma {:induction false} CategoriesWalkReuses(objs: map<string, nat>, inc: Include, g: GuildState,
                                                specs: seq<CategoryDoc>, n: string)
    ensures CategoriesNamed(g.categories, n) > 0 ==>
      CategoriesNamed(CategoriesWalk(objs, inc, g, specs).0.categories, n) == CategoriesNamed(g.categories, n)
    ensures CategoriesNamed(g.categories, n) == 0 ==>
      CategoriesNamed(CategoriesWalk(objs, inc, g, specs).0.categories, n) <= 1
  {
    if specs != [] {
      var init := specs[..|specs| - 1];
      CategoriesWalkReuses(objs, inc, g, init, n);
      var (g1, aborted) := CategoriesWalk(objs, inc, g, init);
      if !aborted {
        CategoryStepNames(objs, inc, g1, specs[|specs| - 1], n);
      }
    }
  }

  /** With `include_categories` off, no category and no channel is created or changed. */
  lemma WalkWithoutCategories(g: GuildState, t: TemplateDoc, inc: Include)
    requires !inc.categories
    ensures Walk(g, t, inc).g.channels == g.channels && Walk(g, t, inc).g.categories == g.categories
  {
    RolesWalkReuses(Progress(g, map[], false), Roles(t), "");
  }

  /** With `include_roles` off, the roles are left as they are. */
  lemma WalkWithoutRoles(g: GuildState, t: TemplateDoc, inc: Include)
    requires !inc.roles
    ensures Walk(g, t, inc).g.roles == g.roles
  {
    CategoriesWalkKeepsRoles(map[], inc, g, Categories(t));
  }

  // ----------------------------------------------------------- overwrites

  /** The overwrite a role starts a channel from: the category's, or a fresh (empty) one. */
  function Base(ows: map<nat, PermMap>, rid: nat): PermMap {
    if rid in ows then ows[rid] else map[]
  }

  /**
   * Reference definition, one role at a time: the role's starting overwrite
   * with the entries that name the role applied over it in order.
   */
  function Merged(objs: map<string, nat>, roles: seq<Role>, perms: seq<(string, PermMap)>, rid: nat,
                  base: PermMap): PermMap
    decreases |perms|
  {
    if perms == [] then base
    else
      var b := Merged(objs, roles, perms[..|perms| - 1], rid, base);
      if Resolve(objs, roles, perms[|perms| - 1].0) == Some(rid) then b + perms[|perms| - 1].1 else b
  }

  lemma {:induction false} MergedUntouched(objs: map<string, nat>, roles: seq<Role>, perms: seq<(string, PermMap)>,
                                           rid: nat, base: PermMap)
    requires forall i :: 0 <= i < |perms| ==> Resolve(objs, roles, perms[i].0) != Some(rid)
    ensures Merged(objs, roles, perms, rid, base) == base
  {
    if perms != [] {
      var init := perms[..|perms| - 1];
      assert forall i :: 0 <= i < |init| ==> init[i] == perms[i];
      MergedUntouched(objs, roles, init, rid, base);
    }
  }

  /** The last entry of the channel's permission loop, seen from role `rid`. */
  lemma ChannelOverwritesStep(objs: map<string, nat>, roles: seq<Role>, start: Tweak,
                              perms: seq<(string, PermMap)>, rid: nat)
    requires perms != [] && ChannelOverwrites(objs, roles, start, perms).Some?
    ensures ChannelOverwrites(objs, roles, start, perms[..|perms| - 1]).Some?
    ensures var t0 := ChannelOverwrites(objs, roles, start, perms[..|perms| - 1]).value;
      var t := ChannelOverwrites(objs, roles, start, perms).value;
      var hit := Resolve(objs, roles, perms[|perms| - 1].0) == Some(rid);
      && (rid in t.channel <==> rid in t0.channel || hit)
      && (hit ==> t.channel[rid] == Base(t0.channel, rid) + perms[|perms| - 1].1)
      && (!hit && rid in t0.channel ==> t.channel[rid] == t0.channel[rid])
  {
    var t0 := ChannelOverwrites(objs, roles, start, perms[..|perms| - 1]).value;
    var (n, p) := perms[|perms| - 1];
    if Resolve(objs, roles, n) == Some(rid) {
      var v := SetEach(Base(t0.channel, rid), p).value;
      assert v == Base(t0.channel, rid) + p;
    }
  }

  /** Role `rid`'s part of `ChannelOverwritesPerRole` carries over one more entry. */
  lemma ChannelOverwritesRoleStep(objs: map<string, nat>, roles: seq<Role>, start: Tweak,
                                  perms: seq<(string, PermMap)>, rid: nat)
    requires perms != [] && ChannelOverwrites(objs, roles, start, perms).Some?
    requires ChannelOverwrites(objs, roles, start, perms[..|perms| - 1]).Some?
    requires var init := perms[..|perms| - 1]; var t0 := ChannelOverwrites(objs, roles, start, init).value;
      && (rid in t0.channel <==>
            rid in start.channel || exists i :: 0 <= i < |init| && Resolve(objs, roles, init[i].0) == Some(rid))
      && (rid in t0.channel ==> t0.channel[rid] == Merged(objs, roles, init, rid, Base(start.channel, rid)))
    ensures var t := ChannelOverwrites(objs, roles, start, perms).value;
      && (rid in t.channel <==>
            rid in start.channel || exists i :: 0 <= i < |perms| && Resolve(objs, roles, perms[i].0) == Some(rid))
      && (rid in t.channel ==> t.channel[rid] == Merged(objs, roles, perms, rid, Base(start.channel, rid)))
  {
    var init := perms[..|perms| - 1];
    var t0 := ChannelOverwrites(objs, roles, start, init).value;
    ChannelOverwritesStep(objs, roles, start, perms, rid);
    assert forall i :: 0 <= i < |init| ==> init[i] == perms[i];
    if Resolve(objs, roles, perms[|perms| - 1].0) == Some(rid) && rid !in t0.channel {
      MergedUntouched(objs, roles, init, rid, Base(start.channel, rid));
    }
  }

  /**
   * The channel's overwrites are the category's, plus one for every role an
   * entry names; each is that role's starting overwrite with the entries for
   * it applied in order.
   */
  lemma {:induction false} ChannelOverwritesPerRole(objs: map<string, nat>, roles: seq<Role>, start: Tweak,
                                                    perms: seq<(string, PermMap)>)
    requires ChannelOverwrites(objs, roles, start, perms).Some?
    ensures var t := ChannelOverwrites(objs, roles, start, perms).value;
      forall rid :: rid in t.channel <==>
        rid in start.channel || exists i :: 0 <= i < |perms| && Resolve(objs, roles, perms[i].0) == Some(rid)
    ensures var t := ChannelOverwrites(objs, roles, start, perms).value;
      forall rid :: rid in t.channel ==> t.channel[rid] == Merged(objs, roles, perms, rid, Base(start.channel, rid))
  {
    if perms != [] {
      ChannelOverwritesStep(objs, roles, start, perms, 0);
      ChannelOverwritesPerRole(objs, roles, start, perms[..|perms| - 1]);
      forall rid {
        ChannelOverwritesRoleStep(objs, roles, start, perms, rid);
      }
    }
  }

  /** A permission key no entry for the role mentions keeps the role's starting value. */
  lemma {:induction false} MergedKeepsUnmentioned(objs: map<string, nat>, roles: seq<Role>,
                                                  perms: seq<(string, PermMap)>, rid: nat, base: PermMap, k: string)
    requires forall i :: 0 <= i < |perms| && Resolve(objs, roles, perms[i].0) == Some(rid) ==> k !in perms[i].1
    ensures k in Merged(objs, roles, perms, rid, base) <==> k in base
    ensures k in base ==> Merged(objs, roles, perms, rid, base)[k] == base[k]
  {
    if perms != [] {
      var init := perms[..|perms| - 1];
      assert forall i :: 0 <= i < |init| ==> init[i] == perms[i];
      MergedKeepsUnmentioned(objs, roles, init, rid, base, k);
    }
  }

  /** A permission key takes the value of the last entry for the role that mentions it. */
  lemma {:induction false} MergedLastWins(objs: map<string, nat>, roles: seq<Role>, perms: seq<(string, PermMap)>,
                                          rid: nat, base: PermMap, i: nat, k: string)
    requires i < |perms| && Resolve(objs, roles, perms[i].0) == Some(rid) && k in perms[i].1
    requires forall j :: i < j < |perms| && Resolve(objs, roles, perms[j].0) == Some(rid) ==> k !in perms[j].1
    ensures k in Merged(objs, roles, perms, rid, base)
    ensures Merged(objs, roles, perms, rid, base)[k] == perms[i].1[k]
  {
    var init := perms[..|perms| - 1];
    if i < |perms| - 1 {
      assert init[i] == perms[i];
      assert forall j :: i < j < |init| ==> init[j] == perms[j];
      MergedLastWins(objs, roles, init, rid, base, i, k);
    }
  }

  /**
   * The shallow copy: when the channel starts from the category's overwrite
   * objects, every change to a role the category has lands in the category's
   * objects too, so afterwards they hold exactly the channel's overwrites for
   * those roles (and no new role).
   */
  lemma {:induction false} ChannelOverwritesShared(objs: map<string, nat>, roles: seq<Role>, start: Tweak,
                                                   perms: seq<(string, PermMap)>)
    requires ChannelOverwrites(objs, roles, start, perms).Some?
    requires start.channel == start.shared
    ensures var t := ChannelOverwrites(objs, roles, start, perms).value;
      t.shared.Keys == start.shared.Keys && forall rid :: rid in t.shared ==> rid in t.channel && t.shared[rid] == t.channel[rid]
  {
    if perms != [] {
      ChannelOverwritesShared(objs, roles, start, perms[..|perms| - 1]);
    }
  }
}
