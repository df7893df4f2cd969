/**
 * `backup_server`: the guild serialised back into the template document
 * shape. Roles are written from the top of the hierarchy down, without the
 * default role and managed roles; every category is written with its text
 * channels and then its voice channels. Overwrites are written as the
 * explicit entries of each overwrite, keyed by role name, and a channel
 * overwrite only when it differs from the category's overwrite for the same
 * role. The methods fill the document in loops as the source does and are
 * proved to produce `BackupOf`.
 */
module Backups {
  import opened Wrappers
  import opened Seqs
  import opened Dicts
  import opened Permissions
  import opened Text
  import opened Guilds
  import opened Documents

  // ---------------------------------------------------------------- roles

  /** A role that is written: neither the default role nor a managed role. */
  predicate Kept(g: GuildState, r: Role) {
    !IsDefault(g, r) && !r.managed
  }

  /** `for perm, value in role.permissions`: every flag, True or False. */
  function AllBits(perms: set<string>): (m: PermMap)
    ensures forall p :: p in m <==> IsPermission(p)
    ensures forall p :: p in m ==> (m[p] <==> p in perms)
  {
    map p | p in PermissionNames :: p in perms
  }

  function RoleDocOf(r: Role): RoleDoc {
    RoleDoc(Some(r.name), Some(ColorText(FormatColor(r.color))), Some(r.hoist), Some(r.mentionable),
            Some(AllBits(r.permissions)))
  }

  /** The role loop over `reversed(guild.roles)`, after it has seen the roles of `roles`. */
  function RolesBackup(g: GuildState, roles: seq<Role>): seq<RoleDoc>
    decreases |roles|
  {
    if roles == [] then []
    else
      var r := roles[|roles| - 1];
      (if Kept(g, r) then [RoleDocOf(r)] else []) + RolesBackup(g, roles[..|roles| - 1])
  }

  /** Reference definitions: the kept roles in guild order, and a sequence reversed. */
  function KeptRoles(g: GuildState, roles: seq<Role>): seq<Role>
    decreases |roles|
  {
    if roles == [] then []
    else KeptRoles(g, roles[..|roles| - 1]) + (if Kept(g, roles[|roles| - 1]) then [roles[|roles| - 1]] else [])
  }

  function Reversed<T>(s: seq<T>): (r: seq<T>)
    ensures |r| == |s| && forall i :: 0 <= i < |s| ==> r[i] == s[|s| - 1 - i]
  {
    if s == [] then [] else [s[|s| - 1]] + Reversed(s[..|s| - 1])
  }

  function RoleDocs(rs: seq<Role>): (ds: seq<RoleDoc>)
    ensures |ds| == |rs| && forall i :: 0 <= i < |rs| ==> ds[i] == RoleDocOf(rs[i])
  {
    seq(|rs|, i requires 0 <= i < |rs| => RoleDocOf(rs[i]))
  }

  lemma ReversedSnoc<T>(s: seq<T>, x: T)
    ensures Reversed(s + [x]) == [x] + Reversed(s)
  {
    assert (s + [x])[..|s|] == s;
  }

  lemma RoleDocsCons(r: Role, rs: seq<Role>)
    ensures RoleDocs([r] + rs) == [RoleDocOf(r)] + RoleDocs(rs)
  {
    var a, b := RoleDocs([r] + rs), [RoleDocOf(r)] + RoleDocs(rs);
    forall i | 0 <= i < |a|
      ensures a[i] == b[i]
    {
      if i > 0 {
        assert ([r] + rs)[i] == rs[i - 1];
      }
    }
  }

  /** The role section is the kept roles, highest first, each written as its document. */
  lemma {:induction false} RolesBackupIsReversedKept(g: GuildState, roles: seq<Role>)
    ensures RolesBackup(g, roles) == RoleDocs(Reversed(KeptRoles(g, roles)))
  {
    if roles != [] {
      var init := roles[..|roles| - 1];
      var r := roles[|roles| - 1];
      RolesBackupIsReversedKept(g, init);
      var k := KeptRoles(g, init);
      if Kept(g, r) {
        assert KeptRoles(g, roles) == k + [r];
        ReversedSnoc(k, r);
        RoleDocsCons(r, Reversed(k));
      } else {
        assert KeptRoles(g, roles) == k + [];
        assert k + [] == k;
      }
    }
  }

  /**
   * Re-applying a written role reads it back: its colour parses, through
   * `int(s, 16)`, to the role's colour, and the granted flags are the role's
   * own (known) flags.
   */
  lemma RoleDocRoundTrip(r: Role)
    ensures ParseHex(RoleDocOf(r).color.value.text) == Some(r.color)
    ensures Granted(RoleDocOf(r).permissions.value) == set p | p in r.permissions && IsPermission(p)
  {
    ColorRoundTrip(r.color);
  }

  /** A 24-bit colour is written as `0x` and exactly six lower-case hex digits. */
  lemma RoleDocColorFormat(r: Role)
    requires r.color <= MaxColor
    ensures var s := RoleDocOf(r).color.value.text;
      |s| == 8 && s[..2] == "0x" && forall i :: 2 <= i < 8 ==> IsHexDigit(s[i]) && !('A' <= s[i] <= 'F')
  {
    FormatColorLength(r.color);
  }

  // ------------------------------------------------------------ overwrites

  /**
   * The overwrite of `r` is written: `r` is a kept role with an overwrite in
   * `ows` that differs from its overwrite in `base` (absent counts as
   * different) and has at least one explicit entry.
   */
  predicate Emits(g: GuildState, r: Role, ows: map<nat, PermMap>, base: map<nat, PermMap>) {
    Kept(g, r) && r.id in ows && !(r.id in base && base[r.id] == ows[r.id]) && Explicit(ows[r.id]) != map[]
  }

  /**
   * The overwrite loop, visiting the overwritten roles in the guild's role
   * order. For a category `base` is empty (every overwrite is written); for a
   * channel it is the category's overwrites.
   */
  function Emit(g: GuildState, roles: seq<Role>, ows: map<nat, PermMap>, base: map<nat, PermMap>): Dict<PermMap>
    decreases |roles|
  {
    if roles == [] then []
    else
      var acc := Emit(g, roles[..|roles| - 1], ows, base);
      var r := roles[|roles| - 1];
      if Emits(g, r, ows, base) then Put(acc, r.name, Explicit(ows[r.id])) else acc
  }

  lemma EmitStep(g: GuildState, roles: seq<Role>, ows: map<nat, PermMap>, base: map<nat, PermMap>, n: string)
    requires roles != []
    ensures var r := roles[|roles| - 1];
      Get(Emit(g, roles, ows, base), n) ==
        if Emits(g, r, ows, base) && r.name == n then Some(Explicit(ows[r.id]))
        else Get(Emit(g, roles[..|roles| - 1], ows, base), n)
  {
    var r := roles[|roles| - 1];
    if Emits(g, r, ows, base) {
      PutGet(Emit(g, roles[..|roles| - 1], ows, base), r.name, Explicit(ows[r.id]), n);
    }
  }

  /**
   * Every written entry belongs to a role whose overwrite is written: a kept
   * role of that name, whose overwrite differs from the base and has explicit
   * entries, and the entry is exactly those explicit entries. In particular a
   * channel overwrite equal to the category's is never written, and no
   * written entry is empty.
   */
  lemma {:induction false} EmitSound(g: GuildState, roles: seq<Role>, ows: map<nat, PermMap>,
                                     base: map<nat, PermMap>, n: string)
    requires Get(Emit(g, roles, ows, base), n).Some?
    ensures exists j :: (0 <= j < |roles| && roles[j].name == n && Emits(g, roles[j], ows, base) &&
                         Get(Emit(g, roles, ows, base), n) == Some(Explicit(ows[roles[j].id])))
  {
    var k := |roles| - 1;
    EmitStep(g, roles, ows, base, n);
    if !(Emits(g, roles[k], ows, base) && roles[k].name == n) {
      var init := roles[..k];
      EmitSound(g, init, ows, base, n);
      var j :| 0 <= j < |init| && init[j].name == n && Emits(g, init[j], ows, base) &&
        Get(Emit(g, init, ows, base), n) == Some(Explicit(ows[init[j].id]));
      PrefixAt(roles, k, j);
    }
  }

  /** One more role keeps every written name and adds its own when it qualifies. */
  lemma EmitKeysGrow(g: GuildState, roles: seq<Role>, ows: map<nat, PermMap>, base: map<nat, PermMap>)
    requires roles != []
    ensures forall x :: x in Keys(Emit(g, roles[..|roles| - 1], ows, base)) ==> x in Keys(Emit(g, roles, ows, base))
    ensures Emits(g, roles[|roles| - 1], ows, base) ==> roles[|roles| - 1].name in Keys(Emit(g, roles, ows, base))
  {
    var r := roles[|roles| - 1];
    if Emits(g, r, ows, base) {
      PutKeys(Emit(g, roles[..|roles| - 1], ows, base), r.name, Explicit(ows[r.id]));
    }
  }

  /** Every role whose overwrite qualifies has an entry under its name. */
  lemma {:induction false} EmitComplete(g: GuildState, roles: seq<Role>, ows: map<nat, PermMap>,
                                        base: map<nat, PermMap>, j: nat)
    requires j < |roles| && Emits(g, roles[j], ows, base)
    ensures roles[j].name in Keys(Emit(g, roles, ows, base))
  {
    var k := |roles| - 1;
    EmitKeysGrow(g, roles, ows, base);
    if j < k {
      assert roles[..k][j] == roles[j];
      EmitComplete(g, roles[..k], ows, base, j);
    }
  }

  // -------------------------------------------------------------- channels

  /** Channel selectors for `category.text_channels` and `category.voice_channels`. */
  function TextIn(cid: nat): Channel -> bool {
    (c: Channel) => c.parent == Some(cid) && c.kind.TextKind?
  }

  function VoiceIn(cid: nat): Channel -> bool {
    (c: Channel) => c.parent == Some(cid) && c.kind.VoiceKind?
  }

  /** `category.text_channels`: every text channel of the category, in position order. */
  function TextChannelsIn(chans: seq<Channel>, cid: nat): (r: seq<Channel>)
    ensures forall c :: c in r <==> c in chans && c.parent == Some(cid) && c.kind.TextKind?
  {
    Filter(chans, TextIn(cid))
  }

  /** `category.voice_channels`: every voice channel of the category, in position order. */
  function VoiceChannelsIn(chans: seq<Channel>, cid: nat): (r: seq<Channel>)
    ensures forall c :: c in r <==> c in chans && c.parent == Some(cid) && c.kind.VoiceKind?
  {
    Filter(chans, VoiceIn(cid))
  }

  /**
   * The category's text and voice channels keep the guild's position order:
   * those among earlier channels come before those among later ones, and a
   * single channel is taken exactly when it belongs to the category and has
   * that kind.
   */
  lemma CategoryChannelsOrdered(a: seq<Channel>, b: seq<Channel>, cid: nat)
    ensures TextChannelsIn(a + b, cid) == TextChannelsIn(a, cid) + TextChannelsIn(b, cid)
    ensures VoiceChannelsIn(a + b, cid) == VoiceChannelsIn(a, cid) + VoiceChannelsIn(b, cid)
    ensures forall c :: TextChannelsIn([c], cid) == if c.parent == Some(cid) && c.kind.TextKind? then [c] else []
    ensures forall c :: VoiceChannelsIn([c], cid) == if c.parent == Some(cid) && c.kind.VoiceKind? then [c] else []
  {
    FilterAppend(a, b, TextIn(cid));
    FilterAppend(a, b, VoiceIn(cid));
    forall c: Channel
      ensures TextChannelsIn([c], cid) == if c.parent == Some(cid) && c.kind.TextKind? then [c] else []
      ensures VoiceChannelsIn([c], cid) == if c.parent == Some(cid) && c.kind.VoiceKind? then [c] else []
    {
      assert [c][..0] == [];
      assert Filter([c], TextIn(cid)) == Filter([], TextIn(cid)) + if TextIn(cid)(c) then [c] else [];
      assert Filter([c], VoiceIn(cid)) == Filter([], VoiceIn(cid)) + if VoiceIn(cid)(c) then [c] else [];
    }
  }

  /** A text or voice channel written with the overwrites that differ from its category's. */
  function ChannelDocOf(g: GuildState, cat: Category, ch: Channel): ChannelDoc {
    var perms := Emit(g, g.roles, ch.overwrites, cat.overwrites);
    match ch.kind
    case TextKind(topic, slowmode, nsfw) =>
      ChannelDoc(Some(ch.name), Some("text"), Some(if topic.Some? then topic.value else ""),
                 Some(slowmode), Some(nsfw), None, None, Some(perms))
    case VoiceKind(bitrate, userLimit) =>
      ChannelDoc(Some(ch.name), Some("voice"), None, None, None, Some(bitrate), Some(userLimit), Some(perms))
    case ForumKind(_) =>
      ChannelDoc(Some(ch.name), Some("forum"), None, None, None, None, None, Some(perms))
  }

  function ChannelDocs(g: GuildState, cat: Category, chs: seq<Channel>): (ds: seq<ChannelDoc>)
    ensures |ds| == |chs| && forall i :: 0 <= i < |chs| ==> ds[i] == ChannelDocOf(g, cat, chs[i])
  {
    seq(|chs|, i requires 0 <= i < |chs| => ChannelDocOf(g, cat, chs[i]))
  }

  function CategoryDocOf(g: GuildState, cat: Category): CategoryDoc {
    CategoryDoc(Some(cat.name), Some(Emit(g, g.roles, cat.overwrites, map[])),
                Some(ChannelDocs(g, cat, TextChannelsIn(g.channels, cat.id) + VoiceChannelsIn(g.channels, cat.id))))
  }

  function CategoryDocs(g: GuildState, cats: seq<Category>): (ds: seq<CategoryDoc>)
    ensures |ds| == |cats| && forall i :: 0 <= i < |cats| ==> ds[i] == CategoryDocOf(g, cats[i])
  {
    seq(|cats|, i requires 0 <= i < |cats| => CategoryDocOf(g, cats[i]))
  }

  /** The backup document of guild `g`, made on `date`. */
  function BackupOf(g: GuildState, date: string): TemplateDoc {
    TemplateDoc(Some(g.name + " Backup"), Some("Backup of " + g.name + " created on " + date), Some("Backup"),
                None, Some(RolesBackup(g, g.roles)), Some(CategoryDocs(g, g.categories)), None, false)
  }

  /**
   * A written text or voice channel is recreated by template application with
   * the same kind and settings (an absent topic comes back as "").
   */
  lemma ChannelDocRecreates(g: GuildState, cat: Category, ch: Channel)
    requires !ch.kind.ForumKind?
    ensures var d := ChannelDocOf(g, cat, ch);
      d.name == Some(ch.name) &&
      match ch.kind
      case TextKind(topic, slowmode, nsfw) =>
        KindOf(d) == "text" && d.topic.GetOr("") == topic.GetOr("") && d.slowmode == Some(slowmode) && d.nsfw == Some(nsfw)
      case VoiceKind(bitrate, userLimit) =>
        KindOf(d) == "voice" && d.bitrate == Some(bitrate) && d.userLimit == Some(userLimit)
      case ForumKind(_) => false
  {
  }

  // ----------------------------------------------------------------- loops

  /** Seeing the roles up to `i` is seeing role `i - 1` first, then the ones before it. */
  lemma RolesBackupNext(g: GuildState, roles: seq<Role>, i: nat)
    requires 0 < i <= |roles|
    ensures RolesBackup(g, roles[..i]) ==
      (if Kept(g, roles[i - 1]) then [RoleDocOf(roles[i - 1])] else []) + RolesBackup(g, roles[..i - 1])
  {
    assert roles[..i][..i - 1] == roles[..i - 1];
  }

  /** One iteration of the role loop keeps its invariant. */
  lemma BackupRolesStep(g: GuildState, docs: seq<RoleDoc>, docs': seq<RoleDoc>, i: nat)
    requires 0 < i <= |g.roles| && docs + RolesBackup(g, g.roles[..i]) == RolesBackup(g, g.roles)
    requires docs' == if Kept(g, g.roles[i - 1]) then docs + [RoleDocOf(g.roles[i - 1])] else docs
    ensures docs' + RolesBackup(g, g.roles[..i - 1]) == RolesBackup(g, g.roles)
  {
    var r := g.roles[i - 1];
    var rest := RolesBackup(g, g.roles[..i - 1]);
    RolesBackupNext(g, g.roles, i);
    if Kept(g, r) {
      AppendAssoc(docs, [RoleDocOf(r)], rest);
    } else {
      assert [] + rest == rest;
    }
  }

  /** The role loop: `for role in reversed(guild.roles)`. */
  method BackupRoles(g: GuildState) returns (docs: seq<RoleDoc>)
    ensures docs == RolesBackup(g, g.roles)
  {
    docs := [];
    var i := |g.roles|;
    assert g.roles[..i] == g.roles;
    while i > 0
      invariant 0 <= i <= |g.roles|
      invariant docs + RolesBackup(g, g.roles[..i]) == RolesBackup(g, g.roles)
      decreases i
    {
      var role := g.roles[i - 1];
      var before := docs;
      if Kept(g, role) {
        docs := docs + [RoleDocOf(role)];
      }
      BackupRolesStep(g, before, docs, i);
      i := i - 1;
    }
    assert g.roles[..0] == [];
  }

  /** `for target, overwrite in overwrites.items()`: the entries written for one category or channel. */
  method BackupOverwrites(g: GuildState, ows: map<nat, PermMap>, base: map<nat, PermMap>)
    returns (perms: Dict<PermMap>)
    ensures perms == Emit(g, g.roles, ows, base)
  {
    perms := [];
    for i := 0 to |g.roles|
      invariant perms == Emit(g, g.roles[..i], ows, base)
    {
      assert g.roles[..i + 1][..i] == g.roles[..i];
      var r := g.roles[i];
      if Emits(g, r, ows, base) {
        perms := Put(perms, r.name, Explicit(ows[r.id]));
      }
    }
    assert g.roles[..|g.roles|] == g.roles;
  }

  method BackupChannels(g: GuildState, cat: Category, chs: seq<Channel>) returns (docs: seq<ChannelDoc>)
    ensures docs == ChannelDocs(g, cat, chs)
  {
    docs := [];
    for i := 0 to |chs|
      invariant |docs| == i && forall j :: 0 <= j < i ==> docs[j] == ChannelDocOf(g, cat, chs[j])
    {
      var perms := BackupOverwrites(g, chs[i].overwrites, cat.overwrites);
      var doc := match chs[i].kind
        case TextKind(topic, slowmode, nsfw) =>
          ChannelDoc(Some(chs[i].name), Some("text"), Some(if topic.Some? then topic.value else ""),
                     Some(slowmode), Some(nsfw), None, None, Some(perms))
        case VoiceKind(bitrate, userLimit) =>
          ChannelDoc(Some(chs[i].name), Some("voice"), None, None, None, Some(bitrate), Some(userLimit), Some(perms))
        case ForumKind(_) =>
          ChannelDoc(Some(chs[i].name), Some("forum"), None, None, None, None, None, Some(perms));
      docs := docs + [doc];
    }
  }

  /** The category loop: overwrites, then the text channels, then the voice channels. */
  lemma ChannelDocsAppend(g: GuildState, cat: Category, a: seq<Channel>, b: seq<Channel>)
    ensures ChannelDocs(g, cat, a + b) == ChannelDocs(g, cat, a) + ChannelDocs(g, cat, b)
  {
  }

  method BackupCategories(g: GuildState) returns (docs: seq<CategoryDoc>)
    ensures docs == CategoryDocs(g, g.categories)
  {
    docs := [];
    for i := 0 to |g.categories|
      invariant |docs| == i && forall j :: 0 <= j < i ==> docs[j] == CategoryDocOf(g, g.categories[j])
    {
      var cat := g.categories[i];
      var perms := BackupOverwrites(g, cat.overwrites, map[]);
      var texts := BackupChannels(g, cat, TextChannelsIn(g.channels, cat.id));
      var voices := BackupChannels(g, cat, VoiceChannelsIn(g.channels, cat.id));
      ChannelDocsAppend(g, cat, TextChannelsIn(g.channels, cat.id), VoiceChannelsIn(g.channels, cat.id));
      docs := docs + [CategoryDoc(Some(cat.name), Some(perms), Some(texts + voices))];
    }
  }

  method SerializeGuild(g: GuildState, date: string) returns (doc: TemplateDoc)
    ensures doc == BackupOf(g, date)
  {
    var roles := BackupRoles(g);
    var categories := BackupCategories(g);
    doc := TemplateDoc(Some(g.name + " Backup"), Some("Backup of " + g.name + " created on " + date), Some("Backup"),
                       None, Some(roles), Some(categories), None, false);
  }
}
