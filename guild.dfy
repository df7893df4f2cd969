/**
 * An in-memory stand-in for the remote guild the bot talks to: its roles,
 * categories and channels, looked up by name the way `discord.utils.get`
 * does (first match), and the create/update calls the core issues. Each call
 * may be refused by the remote: `rejects` holds the names of the entities
 * whose creation or permission update the remote refuses (an exception in
 * the source).
 */
module Guilds {
  import opened Wrappers
  import opened Permissions

  /** Largest 24-bit RGB colour value. */
  const MaxColor: nat := 0xFF_FFFF

  /** A role. The default role (@everyone) is the one whose id is the guild's id. */
  datatype Role = Role(id: nat, name: string, color: nat, hoist: bool, mentionable: bool,
                       permissions: set<string>, managed: bool)

  datatype ChannelKind =
    | TextKind(topic: Option<string>, slowmode: int, nsfw: bool)
    | VoiceKind(bitrate: int, userLimit: int)
    | ForumKind(forumTopic: Option<string>)

  /** Overwrites are keyed by role id. */
  datatype Category = Category(id: nat, name: string, overwrites: map<nat, PermMap>)

  datatype Channel = Channel(id: nat, name: string, kind: ChannelKind, parent: Option<nat>,
                             overwrites: map<nat, PermMap>)

  /**
   * The guild's state. `roles` is in hierarchy order, lowest first (the
   * default role sits at position 0); categories and channels are in position
   * order. `nextId` is the id the next created entity receives.
   */
  datatype GuildState = GuildState(id: nat, name: string, roles: seq<Role>,
                                   categories: seq<Category>, channels: seq<Channel>,
                                   nextId: nat, rejects: set<string>)

  predicate IsDefault(g: GuildState, r: Role) {
    r.id == g.id
  }

  /** `discord.utils.get(items, name=n)`: the first item whose name (as `name` reads it) is `n`. */
  function FindNamed<T>(items: seq<T>, name: T -> string, n: string): (r: Option<T>)
    ensures r.Some? ==> r.value in items && name(r.value) == n
    ensures r.None? <==> forall i :: 0 <= i < |items| ==> name(items[i]) != n
    ensures r.Some? ==> exists i :: 0 <= i < |items| && items[i] == r.value && (forall j :: 0 <= j < i ==> name(items[j]) != n)
  {
    if items == [] then None
    else if name(items[0]) == n then Some(items[0])
    else FindNamed(items[1..], name, n)
  }

  function RoleName(r: Role): string { r.name }

  function CategoryName(c: Category): string { c.name }

  /** `discord.utils.get(guild.roles, name=n)`. */
  function FindRole(roles: seq<Role>, n: string): (r: Option<Role>)
    ensures r.Some? ==> r.value in roles && r.value.name == n
    ensures r.None? <==> forall i :: 0 <= i < |roles| ==> roles[i].name != n
    ensures r.Some? ==> exists i :: 0 <= i < |roles| && roles[i] == r.value && (forall j :: 0 <= j < i ==> roles[j].name != n)
  {
    FindNamed(roles, RoleName, n)
  }

  /** `discord.utils.get(guild.categories, name=n)`. */
  function FindCategory(cats: seq<Category>, n: string): (r: Option<Category>)
    ensures r.Some? ==> r.value in cats && r.value.name == n
    ensures r.None? <==> forall i :: 0 <= i < |cats| ==> cats[i].name != n
    ensures r.Some? ==> exists i :: 0 <= i < |cats| && cats[i] == r.value && (forall j :: 0 <= j < i ==> cats[j].name != n)
  {
    FindNamed(cats, CategoryName, n)
  }

  /** `discord.utils.get(category.channels, name=n)` for the category with id `cid`. */
  function FindChannelIn(chans: seq<Channel>, cid: nat, n: string): (r: Option<Channel>)
    ensures r.Some? ==> r.value in chans && r.value.name == n && r.value.parent == Some(cid)
    ensures r.None? <==> forall i :: 0 <= i < |chans| ==> !(chans[i].parent == Some(cid) && chans[i].name == n)
    ensures r.Some? ==> exists i :: (0 <= i < |chans| && chans[i] == r.value &&
                                     (forall j :: 0 <= j < i ==> !(chans[j].parent == Some(cid) && chans[j].name == n)))
  {
    if chans == [] then None
    else if chans[0].parent == Some(cid) && chans[0].name == n then Some(chans[0])
    else FindChannelIn(chans[1..], cid, n)
  }

  /**
   * `guild.create_role(...)`: the remote places the new role just above the
   * default role and returns its id. It refuses a rejected name and a colour
   * outside 24 bits.
   */
  function CreateRoleF(g: GuildState, name: string, color: int, perms: set<string>,
                       hoist: bool, mentionable: bool): (r: Option<(GuildState, nat)>)
    ensures r.Some? <==> name !in g.rejects && 0 <= color <= MaxColor
    ensures r.Some? ==> var (g', rid) := r.value;
      && rid == g.nextId && g'.nextId == g.nextId + 1
      && g'.categories == g.categories && g'.channels == g.channels
      && g'.id == g.id && g'.name == g.name && g'.rejects == g.rejects
      && |g'.roles| == |g.roles| + 1
      && multiset(g'.roles) == multiset(g.roles) + multiset{Role(rid, name, color, hoist, mentionable, perms, false)}
  {
    if name in g.rejects || !(0 <= color <= MaxColor) then None
    else
      var role := Role(g.nextId, name, color, hoist, mentionable, perms, false);
      var k := if |g.roles| == 0 then 0 else 1;
      var roles := g.roles[..k] + [role] + g.roles[k..];
      assert g.roles == g.roles[..k] + g.roles[k..];
      Some((g.(roles := roles, nextId := g.nextId + 1), g.nextId))
  }

  /** `guild.create_category(name, overwrites)`: appended after the existing categories. */
  function CreateCategoryF(g: GuildState, name: string, ows: map<nat, PermMap>): (r: Option<(GuildState, nat)>)
    ensures r.Some? <==> name !in g.rejects
    ensures r.Some? ==>
      r.value.1 == g.nextId &&
      r.value.0 == g.(categories := g.categories + [Category(g.nextId, name, ows)], nextId := g.nextId + 1)
  {
    if name in g.rejects then None
    else Some((g.(categories := g.categories + [Category(g.nextId, name, ows)], nextId := g.nextId + 1), g.nextId))
  }

  /** Every category with id `cid` gets overwrite `ow` for role `rid`. */
  function WithOverwrite(cats: seq<Category>, cid: nat, rid: nat, ow: PermMap): (r: seq<Category>)
    ensures |r| == |cats|
    ensures forall i :: 0 <= i < |cats| ==>
      r[i] == if cats[i].id == cid then cats[i].(overwrites := cats[i].overwrites[rid := ow]) else cats[i]
  {
    seq(|cats|, i requires 0 <= i < |cats| =>
      if cats[i].id == cid then cats[i].(overwrites := cats[i].overwrites[rid := ow]) else cats[i])
  }

  /** `category.set_permissions(role, overwrite=ow)`, refused when the category's name is rejected. */
  function SetPermissionF(g: GuildState, c: Category, rid: nat, ow: PermMap): (r: Option<GuildState>)
    ensures r.Some? <==> c.name !in g.rejects
    ensures r.Some? ==> r.value == g.(categories := WithOverwrite(g.categories, c.id, rid, ow))
  {
    if c.name in g.rejects then None
    else Some(g.(categories := WithOverwrite(g.categories, c.id, rid, ow)))
  }

  /** `guild.create_*_channel(name, category, overwrites, ...)`: appended after the existing channels. */
  function CreateChannelF(g: GuildState, name: string, kind: ChannelKind, parent: Option<nat>,
                          ows: map<nat, PermMap>): (r: Option<(GuildState, nat)>)
    ensures r.Some? <==> name !in g.rejects
    ensures r.Some? ==>
      r.value.1 == g.nextId &&
      r.value.0 == g.(channels := g.channels + [Channel(g.nextId, name, kind, parent, ows)], nextId := g.nextId + 1)
  {
    if name in g.rejects then None
    else Some((g.(channels := g.channels + [Channel(g.nextId, name, kind, parent, ows)], nextId := g.nextId + 1), g.nextId))
  }

  /** The remote guild, updated in place by the calls the core issues. */
  class Guild {
    const id: nat
    const name: string
    const rejects: set<string>
    var roles: seq<Role>
    var categories: seq<Category>
    var channels: seq<Channel>
    var nextId: nat

    function State(): GuildState
      reads this
    {
      GuildState(id, name, roles, categories, channels, nextId, rejects)
    }

    constructor (s: GuildState)
      ensures State() == s
    {
      id, name, rejects := s.id, s.name, s.rejects;
      roles, categories, channels, nextId := s.roles, s.categories, s.channels, s.nextId;
    }

    method CreateRole(n: string, color: int, perms: set<string>, hoist: bool, mentionable: bool)
      returns (rid: Option<nat>)
      modifies this
      ensures var r := CreateRoleF(old(State()), n, color, perms, hoist, mentionable);
        if r.Some? then State() == r.value.0 && rid == Some(r.value.1)
        else State() == old(State()) && rid.None?
    {
      var r := CreateRoleF(State(), n, color, perms, hoist, mentionable);
      if r.Some? {
        roles, nextId := r.value.0.roles, r.value.0.nextId;
        rid := Some(r.value.1);
      } else {
        rid := None;
      }
    }

    method CreateCategory(n: string, ows: map<nat, PermMap>) returns (cid: Option<nat>)
      modifies this
      ensures var r := CreateCategoryF(old(State()), n, ows);
        if r.Some? then State() == r.value.0 && cid == Some(r.value.1)
        else State() == old(State()) && cid.None?
    {
      if n in rejects {
        cid := None;
      } else {
        categories := categories + [Category(nextId, n, ows)];
        cid := Some(nextId);
        nextId := nextId + 1;
      }
    }

    method SetPermission(c: Category, rid: nat, ow: PermMap) returns (ok: bool)
      modifies this
      ensures var r := SetPermissionF(old(State()), c, rid, ow);
        ok == r.Some? && State() == if ok then r.value else old(State())
    {
      ok := c.name !in rejects;
      if ok {
        categories := WithOverwrite(categories, c.id, rid, ow);
      }
    }

    method CreateChannel(n: string, kind: ChannelKind, parent: Option<nat>, ows: map<nat, PermMap>)
      returns (chid: Option<nat>)
      modifies this
      ensures var r := CreateChannelF(old(State()), n, kind, parent, ows);
        if r.Some? then State() == r.value.0 && chid == Some(r.value.1)
        else State() == old(State()) && chid.None?
    {
      if n in rejects {
        chid := None;
      } else {
        channels := channels + [Channel(nextId, n, kind, parent, ows)];
        chid := Some(nextId);
        nextId := nextId + 1;
      }
    }
  }
}
