/**
 * Permission names and permission overwrites. A permission map sends a
 * permission name to True (allow) or False (deny); a name that is absent is
 * neutral (inherit). An overwrite (`PermissionOverwrite`) is such a map whose
 * names are all real permissions.
 */
module Permissions {
  import opened Wrappers

  type PermMap = map<string, bool>

  /** The permission flags of the chat library (canonical names, in flag order). */
  const PermissionNames: seq<string> := [
    "create_instant_invite", "kick_members", "ban_members", "administrator",
    "manage_channels", "manage_guild", "add_reactions", "view_audit_log",
    "priority_speaker", "stream", "read_messages", "send_messages",
    "send_tts_messages", "manage_messages", "embed_links", "attach_files",
    "read_message_history", "mention_everyone", "external_emojis",
    "view_guild_insights", "connect", "speak", "mute_members", "deafen_members",
    "move_members", "use_voice_activation", "change_nickname", "manage_nicknames",
    "manage_roles", "manage_webhooks", "manage_expressions",
    "use_application_commands", "request_to_speak", "manage_events",
    "manage_threads", "create_public_threads", "create_private_threads",
    "external_stickers", "send_messages_in_threads", "use_embedded_activities",
    "moderate_members"
  ]

  predicate IsPermission(p: string) {
    p in PermissionNames
  }

  predicate AllPermissions(perms: PermMap) {
    forall k :: k in perms ==> IsPermission(k)
  }

  /**
   * `PermissionOverwrite(**perms)`: the overwrite holding exactly these
   * entries; an unknown permission name raises ValueError (None).
   */
  function NewOverwrite(perms: PermMap): (r: Option<PermMap>)
    ensures r.Some? <==> AllPermissions(perms)
    ensures r.Some? ==> r.value == perms
  {
    if AllPermissions(perms) then Some(perms) else None
  }

  /**
   * `setattr(base, k, v)` for every entry of `perms`: mentioned names take the
   * new value, the others keep the base value; an unknown name raises
   * AttributeError (None).
   */
  function SetEach(base: PermMap, perms: PermMap): (r: Option<PermMap>)
    ensures r.Some? <==> AllPermissions(perms)
    ensures r.Some? ==> r.value.Keys == base.Keys + perms.Keys
    ensures r.Some? ==> forall k :: k in perms ==> r.value[k] == perms[k]
    ensures r.Some? ==> forall k :: k in base && k !in perms ==> r.value[k] == base[k]
  {
    if AllPermissions(perms) then Some(base + perms) else None
  }

  /**
   * `discord.Permissions()` followed by `setattr` for every name `hasattr`
   * accepts: the set of granted flags. Unknown names are ignored.
   */
  function Granted(perms: PermMap): (s: set<string>)
    ensures forall k :: k in s <==> k in perms && IsPermission(k) && perms[k]
  {
    set k | k in perms && IsPermission(k) && perms[k]
  }

  /**
   * The explicit entries of an overwrite, read back through `overwrite.pair()`:
   * True for each allowed flag, False for each denied flag.
   */
  function Explicit(ow: PermMap): (r: PermMap)
    ensures AllPermissions(r)
    ensures forall k :: k in r <==> k in ow && IsPermission(k)
    ensures forall k :: k in r ==> r[k] == ow[k]
  {
    map k | k in ow && IsPermission(k) :: ow[k]
  }

  /** Reading back an overwrite the library built loses nothing. */
  lemma ExplicitOfOverwrite(ow: PermMap)
    requires AllPermissions(ow)
    ensures Explicit(ow) == ow
  {
    assert Explicit(ow).Keys == ow.Keys;
  }
}
