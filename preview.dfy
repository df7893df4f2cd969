/**
 * `generate_preview`: a projection of a template document into counts, a
 * per-role summary with its notable permissions, and the category/channel
 * outline. The method `Previews.BuildPreview` fills the lists in loops as the
 * source does and is proved to produce `PreviewOf`.
 */
module Previews {
  import opened Wrappers
  import opened Permissions
  import opened Documents

  datatype RoleInfo = RoleInfo(name: string, color: ColorValue, keyPermissions: seq<string>)

  datatype ChannelInfo = ChannelInfo(name: string, kind: string, topic: string)

  datatype CategoryInfo = CategoryInfo(name: string, channels: seq<ChannelInfo>)

  datatype Preview =
    | NotFound(error: string)
    | Preview(name: string, description: string, category: string, imageUrl: Option<string>,
              roleCount: nat, categoryCount: nat, channelCount: nat,
              roles: seq<RoleInfo>, categories: seq<CategoryInfo>)

  /** `perms.get(flag, False)`. */
  predicate Flag(perms: PermMap, flag: string) {
    flag in perms && perms[flag]
  }

  /** The notable permissions a preview reports, with their display labels, in report order. */
  const Notable: seq<(string, string)> := [
    ("manage_guild", "Manage Server"),
    ("manage_roles", "Manage Roles"),
    ("manage_channels", "Manage Channels"),
    ("kick_members", "Kick Members"),
    ("ban_members", "Ban Members"),
    ("manage_messages", "Manage Messages"),
    ("priority_speaker", "Priority Speaker")
  ]

  /** The labels of the table entries whose flag is set, in table order. */
  function Labels(table: seq<(string, string)>, perms: PermMap): (r: seq<string>)
    ensures |r| <= |table|
  {
    if table == [] then []
    else Pick(perms, table[0].0, table[0].1) + Labels(table[1..], perms)
  }

  /** One `if permissions.get(flag, False): append(caption)`. */
  function Pick(perms: PermMap, flag: string, caption: string): seq<string> {
    if Flag(perms, flag) then [caption] else []
  }

  /** The `key_permissions` of a role: "Administrator" alone, or the notable flags one `if` at a time. */
  function KeyPermissions(perms: PermMap): (r: seq<string>)
    ensures Flag(perms, "administrator") ==> r == ["Administrator"]
  {
    if Flag(perms, "administrator") then ["Administrator"]
    else
      Pick(perms, "manage_guild", "Manage Server") +
      (Pick(perms, "manage_roles", "Manage Roles") +
      (Pick(perms, "manage_channels", "Manage Channels") +
      (Pick(perms, "kick_members", "Kick Members") +
      (Pick(perms, "ban_members", "Ban Members") +
      (Pick(perms, "manage_messages", "Manage Messages") +
       Pick(perms, "priority_speaker", "Priority Speaker"))))))
  }

  lemma LabelsCons(table: seq<(string, string)>, perms: PermMap)
    requires table != []
    ensures Labels(table, perms) == Pick(perms, table[0].0, table[0].1) + Labels(table[1..], perms)
  {
  }

  /**
   * Without administrator, the report is exactly the notable flags the role
   * sets, in table order; with it, "Administrator" alone.
   */
  lemma {:induction false} KeyPermissionsByTable(perms: PermMap)
    ensures KeyPermissions(perms) == if Flag(perms, "administrator") then ["Administrator"] else Labels(Notable, perms)
  {
    if !Flag(perms, "administrator") {
      var t := Notable;
      LabelsCons(t[6..], perms);
      assert t[6..][1..] == [];
      assert Labels(t[6..], perms) == Pick(perms, "priority_speaker", "Priority Speaker");
      LabelsCons(t[5..], perms);
      assert t[5..][1..] == t[6..];
      LabelsCons(t[4..], perms);
      assert t[4..][1..] == t[5..];
      LabelsCons(t[3..], perms);
      assert t[3..][1..] == t[4..];
      LabelsCons(t[2..], perms);
      assert t[2..][1..] == t[3..];
      LabelsCons(t[1..], perms);
      assert t[1..][1..] == t[2..];
      LabelsCons(t, perms);
    }
  }

  /** Every label reported belongs to a table entry whose flag the role sets. */
  lemma {:induction false} LabelsSound(table: seq<(string, string)>, perms: PermMap, i: nat)
    requires i < |Labels(table, perms)|
    ensures exists j :: 0 <= j < |table| && Flag(perms, table[j].0) && table[j].1 == Labels(table, perms)[i]
  {
    var head := Pick(perms, table[0].0, table[0].1);
    if i < |head| {
      assert Flag(perms, table[0].0) && table[0].1 == Labels(table, perms)[i];
    } else {
      LabelsSound(table[1..], perms, i - |head|);
      var j :| 0 <= j < |table[1..]| && Flag(perms, table[1..][j].0) && table[1..][j].1 == Labels(table[1..], perms)[i - |head|];
      assert table[j + 1] == table[1..][j];
    }
  }

  // ------------------------------------------------------------- projection

  function RoleInfoOf(spec: RoleDoc): RoleInfo {
    RoleInfo(spec.name.GetOr("Unnamed Role"), spec.color.GetOr(ColorText("0x000000")),
             KeyPermissions(spec.permissions.GetOr(map[])))
  }

  function ChannelInfoOf(spec: ChannelDoc): ChannelInfo {
    ChannelInfo(spec.name.GetOr("Unnamed Channel"), KindOf(spec), spec.topic.GetOr(""))
  }

  function ChannelInfos(specs: seq<ChannelDoc>): (r: seq<ChannelInfo>)
    ensures |r| == |specs| && forall i :: 0 <= i < |specs| ==> r[i] == ChannelInfoOf(specs[i])
  {
    seq(|specs|, i requires 0 <= i < |specs| => ChannelInfoOf(specs[i]))
  }

  function CategoryInfoOf(spec: CategoryDoc): CategoryInfo {
    CategoryInfo(spec.name.GetOr("Unnamed Category"), ChannelInfos(ChannelsOf(spec)))
  }

  /** `sum(len(category.get("channels", [])) for category in categories)`. */
  function ChannelTotal(cats: seq<CategoryDoc>): nat {
    if cats == [] then 0 else |ChannelsOf(cats[0])| + ChannelTotal(cats[1..])
  }

  /** The number of channels an outline lists. */
  function ListedChannels(cats: seq<CategoryInfo>): nat {
    if cats == [] then 0 else |cats[0].channels| + ListedChannels(cats[1..])
  }

  /** The preview of `template_name`, whose stored template is `t` (`{}` when unknown). */
  function PreviewOf(templateName: string, t: TemplateDoc): Preview {
    if IsEmpty(t) then NotFound("Template '" + templateName + "' not found")
    else
      Preview(templateName, t.description.GetOr("No description available"), t.category.GetOr("Other"),
              t.imageUrl, |Roles(t)|, |Categories(t)|, ChannelTotal(Categories(t)),
              seq(|Roles(t)|, i requires 0 <= i < |Roles(t)| => RoleInfoOf(Roles(t)[i])),
              seq(|Categories(t)|, i requires 0 <= i < |Categories(t)| => CategoryInfoOf(Categories(t)[i])))
  }

  lemma {:induction false} ChannelTotalListed(cats: seq<CategoryDoc>, infos: seq<CategoryInfo>)
    requires |infos| == |cats| && forall i :: 0 <= i < |cats| ==> infos[i] == CategoryInfoOf(cats[i])
    ensures ListedChannels(infos) == ChannelTotal(cats)
  {
    if cats != [] {
      ChannelTotalListed(cats[1..], infos[1..]);
    }
  }

  /**
   * The counts a preview reports agree with what it lists: one role entry per
   * counted role, one outline entry per counted category, and as many listed
   * channels as counted channels.
   */
  lemma PreviewCountsMatchLists(templateName: string, t: TemplateDoc)
    requires !IsEmpty(t)
    ensures var p := PreviewOf(templateName, t);
      p.Preview? && p.roleCount == |p.roles| && p.categoryCount == |p.categories| &&
      p.channelCount == ListedChannels(p.categories)
  {
    var p := PreviewOf(templateName, t);
    ChannelTotalListed(Categories(t), p.categories);
  }

  // ----------------------------------------------------------------- loops

  /** The role loop: one entry per role, in template order. */
  method RoleInfoList(specs: seq<RoleDoc>) returns (infos: seq<RoleInfo>)
    ensures |infos| == |specs| && forall i :: 0 <= i < |specs| ==> infos[i] == RoleInfoOf(specs[i])
  {
    infos := [];
    for k := 0 to |specs|
      invariant |infos| == k && forall i :: 0 <= i < k ==> infos[i] == RoleInfoOf(specs[i])
    {
      infos := infos + [RoleInfoOf(specs[k])];
    }
  }

  /** The category loop with its inner channel loop. */
  method CategoryInfoList(specs: seq<CategoryDoc>) returns (infos: seq<CategoryInfo>)
    ensures |infos| == |specs| && forall i :: 0 <= i < |specs| ==> infos[i] == CategoryInfoOf(specs[i])
  {
    infos := [];
    for k := 0 to |specs|
      invariant |infos| == k && forall i :: 0 <= i < k ==> infos[i] == CategoryInfoOf(specs[i])
    {
      var channels := ChannelsOf(specs[k]);
      var chans: seq<ChannelInfo> := [];
      for m := 0 to |channels|
        invariant |chans| == m && forall i :: 0 <= i < m ==> chans[i] == ChannelInfoOf(channels[i])
      {
        chans := chans + [ChannelInfoOf(channels[m])];
      }
      infos := infos + [CategoryInfo(specs[k].name.GetOr("Unnamed Category"), chans)];
    }
  }

  method BuildPreview(templateName: string, t: TemplateDoc) returns (p: Preview)
    ensures p == PreviewOf(templateName, t)
  {
    if IsEmpty(t) {
      return NotFound("Template '" + templateName + "' not found");
    }
    var roles := RoleInfoList(Roles(t));
    var categories := CategoryInfoList(Categories(t));
    p := Preview(templateName, t.description.GetOr("No description available"), t.category.GetOr("Other"),
                 t.imageUrl, |Roles(t)|, |Categories(t)|, ChannelTotal(Categories(t)), roles, categories);
  }
}
