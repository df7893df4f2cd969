/**
 * What applying a template does to a guild, as functions of the guild's
 * state: the role walk, then the category walk, each category with its
 * channel walk. The imperative `ApplyTemplate` in module TemplateManager is
 * proved to produce exactly these states.
 *
 * Failure scopes follow the source: a failing role is skipped; anything
 * failing inside a category (its overwrites, its creation or update, any of
 * its channels) abandons the rest of that category and moves on to the next
 * one; a role or category without a `name` makes the error handler itself
 * raise, which aborts the whole application.
 */
module Apply {
  import opened Wrappers
  import opened Dicts
  import opened Permissions
  import opened Text
  import opened Guilds
  import opened Documents
  import opened Overwrites

  /** Where a walk stands: the guild, the `role_objects` dict, and whether an error escaped. */
  datatype Progress = Progress(g: GuildState, objs: map<string, nat>, aborted: bool)

  /** `role_objects.get(n) or discord.utils.get(guild.roles, name=n)`, as a role id. */
  function Resolve(objs: map<string, nat>, roles: seq<Role>, n: string): (r: Option<nat>)
    ensures n in objs ==> r == Some(objs[n])
    ensures n !in objs ==> (r.Some? <==> FindRole(roles, n).Some?)
    ensures n !in objs && r.Some? ==> r.value == FindRole(roles, n).value.id
  {
    if n in objs then Some(objs[n])
    else match FindRole(roles, n)
      case Some(role) => Some(role.id)
      case None => None
  }

  // ---------------------------------------------------------------- roles

  /** `int(role.get('color', '0x000000'), 16)`: a colour that is not a string raises TypeError. */
  function TemplateColor(c: Option<ColorValue>): Option<nat> {
    match c
    case None => ParseHex("0x000000")
    case Some(ColorText(s)) => ParseHex(s)
    case Some(ColorNumber(_)) => None
  }

  /** The remote would create this (absent) role: its colour parses and the remote accepts it. */
  predicate Creatable(g: GuildState, spec: RoleDoc)
    requires spec.name.Some?
  {
    var c := TemplateColor(spec.color);
    c.Some? && spec.name.value !in g.rejects && c.value <= MaxColor
  }

  /** One iteration of the role loop. */
  function RoleStep(p: Progress, spec: RoleDoc): Progress
    requires !p.aborted
  {
    match spec.name
    case None => p.(aborted := true)
    case Some(n) =>
      match FindRole(p.g.roles, n)
      case Some(existing) => p.(objs := p.objs[n := existing.id])
      case None =>
        match TemplateColor(spec.color)
        case None => p
        case Some(c) =>
          match CreateRoleF(p.g, n, c, Granted(spec.permissions.GetOr(map[])),
                            spec.hoist.GetOr(false), spec.mentionable.GetOr(false))
          case None => p
          case Some((g', rid)) => Progress(g', p.objs[n := rid], false)
  }

  function RolesWalk(p: Progress, specs: seq<RoleDoc>): Progress
    decreases |specs|
  {
    if specs == [] then p
    else
      var q := RolesWalk(p, specs[..|specs| - 1]);
      if q.aborted then q else RoleStep(q, specs[|specs| - 1])
  }

  // ------------------------------------------------------------- channels

  /** `channel_overwrites` being built, and the category's overwrite objects it shares. */
  datatype Tweak = Tweak(channel: map<nat, PermMap>, shared: map<nat, PermMap>)

  /**
   * The channel's permission loop. `channel_overwrites` starts as a shallow
   * copy of the category's `overwrites`, so for a role the category already
   * has, `setattr` changes the very object the category map holds: the change
   * lands in `shared` too and is seen by every later channel of the category.
   * For a role the category does not have, a fresh overwrite is made.
   */
  function ChannelOverwrites(objs: map<string, nat>, roles: seq<Role>, start: Tweak,
                             perms: seq<(string, PermMap)>): Option<Tweak>
    decreases |perms|
  {
    if perms == [] then Some(start)
    else
      match ChannelOverwrites(objs, roles, start, perms[..|perms| - 1])
      case None => None
      case Some(t) => OverwriteStep(objs, roles, t, perms[|perms| - 1])
  }

  /** One entry of the channel's permission loop. */
  function OverwriteStep(objs: map<string, nat>, roles: seq<Role>, t: Tweak, entry: (string, PermMap)): Option<Tweak> {
    var (n, p) := entry;
    match Resolve(objs, roles, n)
    case None => Some(t)
    case Some(rid) =>
      var base := if rid in t.channel then t.channel[rid] else map[];
      match SetEach(base, p)
      case None => None
      case Some(v) =>
        Some(Tweak(t.channel[rid := v], if rid in t.shared then t.shared[rid := v] else t.shared))
  }

  /** Where a category's channel loop stands: the guild, the category's (mutable) overwrites, whether it was abandoned. */
  datatype CatProgress = CatProgress(g: GuildState, shared: map<nat, PermMap>, abandoned: bool)

  /** `(channel_type == 'text' and not include_text_channels) or (channel_type == 'voice' and not include_voice_channels)`. */
  predicate Filtered(inc: Include, kind: string) {
    (kind == "text" && !inc.text) || (kind == "voice" && !inc.voice)
  }

  /** The create call the channel's type selects, with its defaults; None for an unknown type (nothing is created). */
  function NewChannelKind(spec: ChannelDoc): Option<ChannelKind> {
    var kind := KindOf(spec);
    if kind == "text" then Some(TextKind(Some(spec.topic.GetOr("")), spec.slowmode.GetOr(0), spec.nsfw.GetOr(false)))
    else if kind == "voice" then Some(VoiceKind(spec.bitrate.GetOr(64000), spec.userLimit.GetOr(0)))
    else if kind == "forum" then Some(ForumKind(Some(spec.topic.GetOr(""))))
    else None
  }

  /** One iteration of a category's channel loop (category with id `cid`). */
  function ChannelStep(objs: map<string, nat>, inc: Include, cid: nat, p: CatProgress, spec: ChannelDoc): CatProgress
    requires !p.abandoned
  {
    match spec.name
    case None => p.(abandoned := true)
    case Some(n) =>
      if FindChannelIn(p.g.channels, cid, n).Some? then p
      else if Filtered(inc, KindOf(spec)) then p
      else
        match ChannelOverwrites(objs, p.g.roles, Tweak(p.shared, p.shared), spec.permissions.GetOr([]))
        case None => p.(abandoned := true)
        case Some(t) =>
          match NewChannelKind(spec)
          case None => CatProgress(p.g, t.shared, false)
          case Some(k) =>
            match CreateChannelF(p.g, n, k, Some(cid), t.channel)
            case None => CatProgress(p.g, t.shared, true)
            case Some((g', _)) => CatProgress(g', t.shared, false)
  }

  function ChannelsWalk(objs: map<string, nat>, inc: Include, cid: nat, p: CatProgress,
                        specs: seq<ChannelDoc>): CatProgress
    decreases |specs|
  {
    if specs == [] then p
    else
      var q := ChannelsWalk(objs, inc, cid, p, specs[..|specs| - 1]);
      if q.abandoned then q else ChannelStep(objs, inc, cid, q, specs[|specs| - 1])
  }

  // ----------------------------------------------------------- categories

  /** Every category with id `cid` gets the overwrites `ows` for their roles (`overwrites + ows`). */
  function WithOverwrites(cats: seq<Category>, cid: nat, ows: map<nat, PermMap>): (r: seq<Category>)
    ensures |r| == |cats|
    ensures forall i :: 0 <= i < |cats| ==>
      r[i] == if cats[i].id == cid then cats[i].(overwrites := cats[i].overwrites + ows) else cats[i]
  {
    seq(|cats|, i requires 0 <= i < |cats| =>
      if cats[i].id == cid then cats[i].(overwrites := cats[i].overwrites + ows) else cats[i])
  }

  /**
   * `for role, overwrite in overwrites.items(): await category.set_permissions(...)`:
   * nothing to do for no overwrites; otherwise the first call already fails
   * when the remote refuses this category.
   */
  function SetPermissionsF(g: GuildState, c: Category, ows: map<nat, PermMap>): Option<GuildState> {
    if ows == map[] then Some(g)
    else if c.name in g.rejects then None
    else Some(g.(categories := WithOverwrites(g.categories, c.id, ows)))
  }

  /** The role lookup of the category and channel steps, as a function of a name. */
  function Resolver(objs: map<string, nat>, roles: seq<Role>): string -> Option<nat> {
    n => Resolve(objs, roles, n)
  }

  /** One iteration of the category loop; the flag says an error escaped the handler. */
  function CategoryStep(objs: map<string, nat>, inc: Include, g: GuildState, spec: CategoryDoc): (GuildState, bool) {
    var ows := Build(Resolver(objs, g.roles), spec.permissions.GetOr([]));
    match spec.name
    case None => (g, true)
    case Some(n) =>
      if ows.None? then (g, false)
      else
        match FindCategory(g.categories, n)
        case Some(c) =>
          (match SetPermissionsF(g, c, ows.value)
           case None => (g, false)
           case Some(g1) => (ChannelsWalk(objs, inc, c.id, CatProgress(g1, ows.value, false), ChannelsOf(spec)).g, false))
        case None =>
          (match CreateCategoryF(g, n, ows.value)
           case None => (g, false)
           case Some((g1, cid)) => (ChannelsWalk(objs, inc, cid, CatProgress(g1, ows.value, false), ChannelsOf(spec)).g, false))
  }

  function CategoriesWalk(objs: map<string, nat>, inc: Include, g: GuildState, specs: seq<CategoryDoc>): (GuildState, bool)
    decreases |specs|
  {
    if specs == [] then (g, false)
    else
      var (g1, aborted) := CategoriesWalk(objs, inc, g, specs[..|specs| - 1]);
      if aborted then (g1, true) else CategoryStep(objs, inc, g1, specs[|specs| - 1])
  }

  /** The whole walk of a (found) template: roles if included, then categories if included. */
  function Walk(g: GuildState, t: TemplateDoc, inc: Include): Progress {
    var r := if inc.roles then RolesWalk(Progress(g, map[], false), Roles(t)) else Progress(g, map[], false);
    if r.aborted || !inc.categories then r
    else
      var (g2, aborted) := CategoriesWalk(r.objs, inc, r.g, Categories(t));
      Progress(g2, r.objs, aborted)
  }
  // ------------------------------------------- a stopped walk stays stopped

  lemma {:induction false} RolesWalkStops(p: Progress, specs: seq<RoleDoc>, i: nat)
    requires i <= |specs| && RolesWalk(p, specs[..i]).aborted
    ensures RolesWalk(p, specs) == RolesWalk(p, specs[..i])
    decreases |specs| - i
  {
    if i < |specs| {
      assert specs[..i + 1][..i] == specs[..i];
      RolesWalkStops(p, specs, i + 1);
    } else {
      assert specs[..i] == specs;
    }
  }

  lemma {:induction false} ChannelsWalkStops(objs: map<string, nat>, inc: Include, cid: nat, p: CatProgress,
                                             specs: seq<ChannelDoc>, i: nat)
    requires i <= |specs| && ChannelsWalk(objs, inc, cid, p, specs[..i]).abandoned
    ensures ChannelsWalk(objs, inc, cid, p, specs) == ChannelsWalk(objs, inc, cid, p, specs[..i])
    decreases |specs| - i
  {
    if i < |specs| {
      assert specs[..i + 1][..i] == specs[..i];
      ChannelsWalkStops(objs, inc, cid, p, specs, i + 1);
    } else {
      assert specs[..i] == specs;
    }
  }

  lemma {:induction false} CategoriesWalkStops(objs: map<string, nat>, inc: Include, g: GuildState,
                                               specs: seq<CategoryDoc>, i: nat)
    requires i <= |specs| && CategoriesWalk(objs, inc, g, specs[..i]).1
    ensures CategoriesWalk(objs, inc, g, specs) == CategoriesWalk(objs, inc, g, specs[..i])
    decreases |specs| - i
  {
    if i < |specs| {
      assert specs[..i + 1][..i] == specs[..i];
      CategoriesWalkStops(objs, inc, g, specs, i + 1);
    } else {
      assert specs[..i] == specs;
    }
  }
}
