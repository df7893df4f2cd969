/**
 * The guild helpers: `build_permission_overwrites`, which resolves a
 * role-name -> permissions mapping against the guild's roles (with the
 * `"@everyone"` fallback to the default role), and the `create_*` wrappers,
 * which turn a specification into one creation call and report a refused
 * call as None instead of raising.
 */
module Helpers {
  import opened Wrappers
  import opened Dicts
  import opened Permissions
  import opened Text
  import opened Guilds
  import opened Documents
  import opened Overwrites
  import opened Apply
  import opened Backups

  // ------------------------------------------------------------ overwrites

  /** The role a name stands for: the first guild role of that name, else the default role for `"@everyone"`. */
  function Lookup(g: GuildState, n: string): (r: Option<nat>)
    ensures FindRole(g.roles, n).Some? ==> r == Some(FindRole(g.roles, n).value.id)
    ensures FindRole(g.roles, n).None? ==> r == if n == "@everyone" then Some(g.id) else None
  {
    match FindRole(g.roles, n)
    case Some(role) => Some(role.id)
    case None => if n == "@everyone" then Some(g.id) else None
  }

  /**
   * `build_permission_overwrites(guild, overwrite_data)`; None when
   * `PermissionOverwrite(**permissions)` raises on an unknown permission name
   * of a resolved entry (the helper does not catch it).
   */
  function BuildPermissionOverwrites(g: GuildState, data: Dict<PermMap>): Option<map<nat, PermMap>> {
    Build(n => Lookup(g, n), data)
  }

  /**
   * The result's keys are exactly the roles the entries' names stand for: a
   * guild role of that name, or the default role through `"@everyone"`. Every
   * other name is dropped. The build fails exactly when a resolved entry names
   * an unknown permission.
   */
  lemma BuildPermissionOverwritesKeys(g: GuildState, data: Dict<PermMap>)
    ensures BuildPermissionOverwrites(g, data).None? <==>
      exists i :: 0 <= i < |data| && Lookup(g, data[i].0).Some? && !AllPermissions(data[i].1)
    ensures BuildPermissionOverwrites(g, data).Some? ==>
      forall rid :: rid in BuildPermissionOverwrites(g, data).value <==>
        exists i :: 0 <= i < |data| &&
          ((FindRole(g.roles, data[i].0).Some? && FindRole(g.roles, data[i].0).value.id == rid) ||
           (FindRole(g.roles, data[i].0).None? && data[i].0 == "@everyone" && rid == g.id))
  {
    var resolve := n => Lookup(g, n);
    BuildSpec(resolve, data);
    if BuildPermissionOverwrites(g, data).Some? {
      var ows := BuildPermissionOverwrites(g, data).value;
      forall rid | rid in ows
        ensures exists i :: (0 <= i < |data| &&
                             ((FindRole(g.roles, data[i].0).Some? && FindRole(g.roles, data[i].0).value.id == rid) ||
                              (FindRole(g.roles, data[i].0).None? && data[i].0 == "@everyone" && rid == g.id)))
      {
        var i :| 0 <= i < |data| && resolve(data[i].0) == Some(rid);
        assert Lookup(g, data[i].0) == Some(rid);
      }
    }
  }

  /**
   * A name that matches a guild role maps that role to exactly the entry's
   * permissions, unless a later entry stands for the same role.
   */
  lemma NamedRoleOverwrite(g: GuildState, data: Dict<PermMap>, i: nat)
    requires BuildPermissionOverwrites(g, data).Some?
    requires i < |data| && FindRole(g.roles, data[i].0).Some?
    requires forall j :: i < j < |data| ==> Lookup(g, data[j].0) != Some(FindRole(g.roles, data[i].0).value.id)
    ensures FindRole(g.roles, data[i].0).value.id in BuildPermissionOverwrites(g, data).value
    ensures BuildPermissionOverwrites(g, data).value[FindRole(g.roles, data[i].0).value.id] == data[i].1
  {
    var resolve := n => Lookup(g, n);
    var rid := FindRole(g.roles, data[i].0).value.id;
    BuildSpec(resolve, data);
    assert LastFor(resolve, data, i, rid);
  }

  /**
   * `"@everyone"`, when no role carries that name, maps the default role to
   * the entry's permissions, unless a later entry stands for the default role.
   */
  lemma EveryoneFallback(g: GuildState, data: Dict<PermMap>, i: nat)
    requires BuildPermissionOverwrites(g, data).Some?
    requires i < |data| && data[i].0 == "@everyone" && FindRole(g.roles, "@everyone").None?
    requires forall j :: i < j < |data| ==> Lookup(g, data[j].0) != Some(g.id)
    ensures g.id in BuildPermissionOverwrites(g, data).value
    ensures BuildPermissionOverwrites(g, data).value[g.id] == data[i].1
  {
    var resolve := n => Lookup(g, n);
    BuildSpec(resolve, data);
    assert LastFor(resolve, data, i, g.id);
  }

  // ------------------------------------------------------------ create_role

  /** The arguments `create_role` passes to `guild.create_role`. */
  datatype RoleRequest = RoleRequest(name: string, color: int, permissions: set<string>, hoist: bool, mentionable: bool)

  /**
   * The colour `create_role` uses: a string is read as base 16 (`int(s, 16)`
   * raises on anything else), a number is used as it is.
   */
  function HelperColor(c: Option<ColorValue>): (r: Option<int>)
    ensures c.Some? && c.value.ColorNumber? ==> r == Some(c.value.number)
    ensures c.Some? && c.value.ColorText? ==> r.Some? == ParseHex(c.value.text).Some?
  {
    match c
    case None => ParseHex("0x000000")
    case Some(ColorText(s)) => ParseHex(s)
    case Some(ColorNumber(v)) => Some(v)
  }

  /** A role without a colour is created black. */
  lemma DefaultColorIsBlack()
    ensures HelperColor(None) == Some(0)
  {
    ColorRoundTrip(0);
    assert FormatColor(0) == "0x000000";
  }

  /** The request `create_role(guild, role_data)` makes; None when the colour string does not parse. */
  function RoleRequestOf(spec: RoleDoc): (r: Option<RoleRequest>)
    ensures r.Some? <==> HelperColor(spec.color).Some?
    ensures r.Some? ==>
      && r.value.name == spec.name.GetOr("New Role")
      && r.value.color == HelperColor(spec.color).value
      && r.value.hoist == spec.hoist.GetOr(false)
      && r.value.mentionable == spec.mentionable.GetOr(false)
      && forall p :: p in r.value.permissions <==>
           p in spec.permissions.GetOr(map[]) && IsPermission(p) && spec.permissions.GetOr(map[])[p]
  {
    match HelperColor(spec.color)
    case None => None
    case Some(c) =>
      Some(RoleRequest(spec.name.GetOr("New Role"), c, Granted(spec.permissions.GetOr(map[])),
                       spec.hoist.GetOr(false), spec.mentionable.GetOr(false)))
  }

  /**
   * The helper and template application read a role colour alike, except that
   * only the helper accepts a number.
   */
  lemma HelperColorMatchesApply(c: Option<ColorValue>)
    ensures (c.None? || c.value.ColorText?) ==> HelperColor(c) == TemplateColor(c)
    ensures c.Some? && c.value.ColorNumber? ==> TemplateColor(c).None? && HelperColor(c).Some?
  {
  }

  /**
   * A role written by the backup is requested again with its own name,
   * colour, flags (the known ones), hoist and mentionable settings.
   */
  lemma BackupRoleRecreated(r: Role)
    ensures RoleRequestOf(RoleDocOf(r)) ==
      Some(RoleRequest(r.name, r.color, (set p | p in r.permissions && IsPermission(p)), r.hoist, r.mentionable))
  {
    RoleDocRoundTrip(r);
  }

  /** `create_role`: one creation call; a refused call or an unparsable colour gives None and changes nothing. */
  method CreateRole(guild: Guild, spec: RoleDoc) returns (rid: Option<nat>)
    modifies guild
    ensures var q := RoleRequestOf(spec);
      var r := if q.Some? then CreateRoleF(old(guild.State()), q.value.name, q.value.color, q.value.permissions,
                                           q.value.hoist, q.value.mentionable)
               else None;
      if r.Some? then guild.State() == r.value.0 && rid == Some(r.value.1)
      else guild.State() == old(guild.State()) && rid.None?
  {
    var q := RoleRequestOf(spec);
    if q.None? {
      return None;
    }
    rid := guild.CreateRole(q.value.name, q.value.color, q.value.permissions, q.value.hoist, q.value.mentionable);
  }

  // ------------------------------------------------ categories and channels

  /** `create_category(guild, name, overwrites=...)`: a missing overwrite map is `{}`. */
  method CreateCategory(guild: Guild, name: string, overwrites: Option<map<nat, PermMap>>) returns (cid: Option<nat>)
    modifies guild
    ensures var r := CreateCategoryF(old(guild.State()), name, overwrites.GetOr(map[]));
      if r.Some? then guild.State() == r.value.0 && cid == Some(r.value.1)
      else guild.State() == old(guild.State()) && cid.None?
  {
    cid := guild.CreateCategory(name, overwrites.GetOr(map[]));
  }

  /** The channel a `create_text_channel` call asks for; omitted arguments take their defaults. */
  function TextKindOf(topic: Option<string>, slowmode: Option<int>, nsfw: Option<bool>): (k: ChannelKind)
    ensures k.TextKind? && k.topic == topic
    ensures k.slowmode == slowmode.GetOr(0) && k.nsfw == nsfw.GetOr(false)
  {
    TextKind(topic, slowmode.GetOr(0), nsfw.GetOr(false))
  }

  /** The channel a `create_voice_channel` call asks for: bitrate 64000 and no user limit by default. */
  function VoiceKindOf(bitrate: Option<int>, userLimit: Option<int>): (k: ChannelKind)
    ensures k.VoiceKind? && k.bitrate == bitrate.GetOr(64000) && k.userLimit == userLimit.GetOr(0)
  {
    VoiceKind(bitrate.GetOr(64000), userLimit.GetOr(0))
  }

  method CreateTextChannel(guild: Guild, name: string, category: Option<nat>, topic: Option<string>,
                           slowmode: Option<int>, nsfw: Option<bool>, overwrites: Option<map<nat, PermMap>>)
    returns (chid: Option<nat>)
    modifies guild
    ensures var r := CreateChannelF(old(guild.State()), name, TextKindOf(topic, slowmode, nsfw), category,
                                    overwrites.GetOr(map[]));
      if r.Some? then guild.State() == r.value.0 && chid == Some(r.value.1)
      else guild.State() == old(guild.State()) && chid.None?
  {
    chid := guild.CreateChannel(name, TextKindOf(topic, slowmode, nsfw), category, overwrites.GetOr(map[]));
  }

  method CreateVoiceChannel(guild: Guild, name: string, category: Option<nat>, bitrate: Option<int>,
                            userLimit: Option<int>, overwrites: Option<map<nat, PermMap>>)
    returns (chid: Option<nat>)
    modifies guild
    ensures var r := CreateChannelF(old(guild.State()), name, VoiceKindOf(bitrate, userLimit), category,
                                    overwrites.GetOr(map[]));
      if r.Some? then guild.State() == r.value.0 && chid == Some(r.value.1)
      else guild.State() == old(guild.State()) && chid.None?
  {
    chid := guild.CreateChannel(name, VoiceKindOf(bitrate, userLimit), category, overwrites.GetOr(map[]));
  }

  /**
   * A voice channel written by the backup is asked for again with its own
   * bitrate and user limit, and a text channel with its own slowmode and nsfw
   * setting (an absent topic comes back as "").
   */
  lemma BackupChannelRecreated(g: GuildState, cat: Category, ch: Channel)
    ensures ch.kind.VoiceKind? ==>
      var d := ChannelDocOf(g, cat, ch);
      VoiceKindOf(d.bitrate, d.userLimit) == ch.kind
    ensures ch.kind.TextKind? ==>
      var d := ChannelDocOf(g, cat, ch);
      TextKindOf(d.topic, d.slowmode, d.nsfw) == ch.kind.(topic := Some(ch.kind.topic.GetOr("")))
  {
  }
}
