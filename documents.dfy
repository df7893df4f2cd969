/**
 * The template document. Every key the code reads with `.get(k, default)` or
 * `d[k]` is an optional field here; `None` means the key is absent.
 * Mappings whose iteration order the code depends on are `Dict`s.
 */
module Documents {
  import opened Wrappers
  import opened Dicts
  import opened Permissions

  /** A role colour as written in a document: a string such as "0x3498db", or a bare number. */
  datatype ColorValue = ColorText(text: string) | ColorNumber(number: int)

  datatype RoleDoc = RoleDoc(
    name: Option<string>,
    color: Option<ColorValue>,
    hoist: Option<bool>,
    mentionable: Option<bool>,
    permissions: Option<PermMap>)

  /** `type` is "text", "voice" or "forum" in practice; any other string is carried as it is. */
  datatype ChannelDoc = ChannelDoc(
    name: Option<string>,
    kind: Option<string>,
    topic: Option<string>,
    slowmode: Option<int>,
    nsfw: Option<bool>,
    bitrate: Option<int>,
    userLimit: Option<int>,
    permissions: Option<Dict<PermMap>>)

  datatype CategoryDoc = CategoryDoc(
    name: Option<string>,
    permissions: Option<Dict<PermMap>>,
    channels: Option<seq<ChannelDoc>>)

  /** `otherKeys` records whether the dict holds any key besides the seven the code reads. */
  datatype TemplateDoc = TemplateDoc(
    name: Option<string>,
    description: Option<string>,
    category: Option<string>,
    imageUrl: Option<string>,
    roles: Option<seq<RoleDoc>>,
    categories: Option<seq<CategoryDoc>>,
    isAiGenerated: Option<bool>,
    otherKeys: bool)

  /** `{}`, what `get_template` returns for an unknown name. */
  const EmptyTemplate := TemplateDoc(None, None, None, None, None, None, None, false)

  /** Python truthiness of a template dict: empty iff it has no keys. */
  predicate IsEmpty(t: TemplateDoc) {
    t == EmptyTemplate
  }

  function Roles(t: TemplateDoc): seq<RoleDoc> { t.roles.GetOr([]) }

  function Categories(t: TemplateDoc): seq<CategoryDoc> { t.categories.GetOr([]) }

  function ChannelsOf(c: CategoryDoc): seq<ChannelDoc> { c.channels.GetOr([]) }

  /** `channel.get('type', 'text')`. */
  function KindOf(c: ChannelDoc): string { c.kind.GetOr("text") }

  /** The four `include_*` entries of a customisation options dict (absent = key missing). */
  datatype Options = Options(
    includeRoles: Option<bool>,
    includeCategories: Option<bool>,
    includeTextChannels: Option<bool>,
    includeVoiceChannels: Option<bool>)

  /** The flags in force after defaulting every missing option to True. */
  datatype Include = Include(roles: bool, categories: bool, text: bool, voice: bool)

  function Effective(o: Options): (inc: Include)
    ensures inc.roles == (o.includeRoles != Some(false))
    ensures inc.categories == (o.includeCategories != Some(false))
    ensures inc.text == (o.includeTextChannels != Some(false))
    ensures inc.voice == (o.includeVoiceChannels != Some(false))
  {
    Include(o.includeRoles.GetOr(true), o.includeCategories.GetOr(true),
            o.includeTextChannels.GetOr(true), o.includeVoiceChannels.GetOr(true))
  }
}
