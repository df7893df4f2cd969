/**
 * The template manager: the template store, template application against a
 * guild, and community submissions. Application is imperative, as in the
 * source; every method is proved to leave the guild in the state the
 * functions of module Apply describe.
 */
module Templates {
  import opened Wrappers
  import opened Seqs
  import opened Dicts
  import opened Permissions
  import opened Guilds
  import opened Documents
  import opened Overwrites
  import opened Apply
  import opened Analytics
  import opened Previews
  import opened Text
  import opened Backups

  /** The errors that escape `apply_template`. */
  datatype ApplyError =
    | TemplateNotFound  // ValueError: no such template
    | MissingName       // KeyError 'name' raised again by an error handler

  /** Python truthiness of an optional user id. */
  predicate Truthy(userId: Option<int>) {
    userId.Some? && userId.value != 0
  }

  /** `options` as the usage event sees it: None was replaced by `{}` once the template was found. */
  const NoOptions := Options(None, None, None, None)

  // ------------------------------------------------------------ role loop

  /** The walk over one more role is one more step, unless it already stopped. */
  lemma RolesWalkNext(p: Progress, specs: seq<RoleDoc>, i: nat)
    requires i < |specs| && !RolesWalk(p, specs[..i]).aborted
    ensures RolesWalk(p, specs[..i + 1]) == RoleStep(RolesWalk(p, specs[..i]), specs[i])
  {
    assert specs[..i + 1][..i] == specs[..i];
  }

  method ApplyRoles(guild: Guild, specs: seq<RoleDoc>) returns (objs: map<string, nat>, aborted: bool)
    modifies guild
    ensures RolesWalk(Progress(old(guild.State()), map[], false), specs) == Progress(guild.State(), objs, aborted)
  {
    ghost var start := Progress(guild.State(), map[], false);
    objs, aborted := map[], false;
    var i := 0;
    while i < |specs|
      invariant 0 <= i <= |specs|
      invariant !aborted
      invariant RolesWalk(start, specs[..i]) == Progress(guild.State(), objs, false)
    {
      RolesWalkNext(start, specs, i);
      var spec := specs[i];
      if spec.name.None? {
        aborted := true;
        RolesWalkStops(start, specs, i + 1);
        return;
      }
      var n := spec.name.value;
      var existing := FindRole(guild.roles, n);
      if existing.Some? {
        objs := objs[n := existing.value.id];
      } else {
        var color := TemplateColor(spec.color);
        if color.Some? {
          var rid := guild.CreateRole(n, color.value, Granted(spec.permissions.GetOr(map[])),
                                      spec.hoist.GetOr(false), spec.mentionable.GetOr(false));
          if rid.Some? {
            objs := objs[n := rid.value];
          }
        }
      }
      i := i + 1;
    }
    assert specs[..i] == specs;
  }

  // --------------------------------------------------------- channel loop

  /** A channel's permission loop over the category's `overwrites` (`shared`), which it may mutate. */
  method TweakOverwrites(objs: map<string, nat>, roles: seq<Role>, shared: map<nat, PermMap>,
                         perms: seq<(string, PermMap)>) returns (r: Option<Tweak>)
    ensures r == ChannelOverwrites(objs, roles, Tweak(shared, shared), perms)
  {
    var channel: map<nat, PermMap>, sh: map<nat, PermMap> := shared, shared;
    var i := 0;
    while i < |perms|
      invariant 0 <= i <= |perms|
      invariant ChannelOverwrites(objs, roles, Tweak(shared, shared), perms[..i]) == Some(Tweak(channel, sh))
    {
      assert perms[..i + 1][..i] == perms[..i];
      assert ChannelOverwrites(objs, roles, Tweak(shared, shared), perms[..i + 1]) ==
        OverwriteStep(objs, roles, Tweak(channel, sh), perms[i]);
      var (n, p) := perms[i];
      var rid := Resolve(objs, roles, n);
      if rid.Some? {
        var base := if rid.value in channel then channel[rid.value] else map[];
        var v := SetEach(base, p);
        if v.None? {
          TweakStops(objs, roles, Tweak(shared, shared), perms, i + 1);
          return None;
        }
        channel := channel[rid.value := v.value];
        if rid.value in sh {
          sh := sh[rid.value := v.value];
        }
      }
      i := i + 1;
    }
    assert perms[..i] == perms;
    r := Some(Tweak(channel, sh));
  }

  lemma {:induction false} TweakStops(objs: map<string, nat>, roles: seq<Role>, start: Tweak,
                                      perms: seq<(string, PermMap)>, i: nat)
    requires i <= |perms| && ChannelOverwrites(objs, roles, start, perms[..i]).None?
    ensures ChannelOverwrites(objs, roles, start, perms).None?
    decreases |perms| - i
  {
    if i < |perms| {
      assert perms[..i + 1][..i] == perms[..i];
      TweakStops(objs, roles, start, perms, i + 1);
    } else {
      assert perms[..i] == perms;
    }
  }

  /** One channel of a category's loop; `shared` is the category's overwrites as the channel finds them. */
  method ApplyChannel(guild: Guild, objs: map<string, nat>, inc: Include, cid: nat,
                      shared: map<nat, PermMap>, spec: ChannelDoc) returns (shared': map<nat, PermMap>, abandoned: bool)
    modifies guild
    ensures ChannelStep(objs, inc, cid, CatProgress(old(guild.State()), shared, false), spec)
      == CatProgress(guild.State(), shared', abandoned)
  {
    shared', abandoned := shared, false;
    if spec.name.None? {
      abandoned := true;
      return;
    }
    var n := spec.name.value;
    if FindChannelIn(guild.channels, cid, n).Some? || Filtered(inc, KindOf(spec)) {
      return;
    }
    var t := TweakOverwrites(objs, guild.roles, shared, spec.permissions.GetOr([]));
    if t.None? {
      abandoned := true;
      return;
    }
    shared' := t.value.shared;
    var kind := NewChannelKind(spec);
    if kind.Some? {
      var chid := guild.CreateChannel(n, kind.value, Some(cid), t.value.channel);
      abandoned := chid.None?;
    }
  }

  /** The walk over one more channel is one more step, unless it already stopped. */
  lemma ChannelsWalkNext(objs: map<string, nat>, inc: Include, cid: nat, p: CatProgress, specs: seq<ChannelDoc>, i: nat)
    requires i < |specs| && !ChannelsWalk(objs, inc, cid, p, specs[..i]).abandoned
    ensures ChannelsWalk(objs, inc, cid, p, specs[..i + 1]) ==
      ChannelStep(objs, inc, cid, ChannelsWalk(objs, inc, cid, p, specs[..i]), specs[i])
  {
    assert specs[..i + 1][..i] == specs[..i];
  }

  /** The channel loop of the category with id `cid`; `abandoned` says an exception ended it. */
  method ApplyChannels(guild: Guild, objs: map<string, nat>, inc: Include, cid: nat,
                       overwrites: map<nat, PermMap>, specs: seq<ChannelDoc>) returns (abandoned: bool)
    modifies guild
    ensures var w := ChannelsWalk(objs, inc, cid, CatProgress(old(guild.State()), overwrites, false), specs);
      w.g == guild.State() && w.abandoned == abandoned
  {
    ghost var start := CatProgress(guild.State(), overwrites, false);
    var shared := overwrites;
    var i := 0;
    abandoned := false;
    while i < |specs|
      invariant 0 <= i <= |specs|
      invariant ChannelsWalk(objs, inc, cid, start, specs[..i]) == CatProgress(guild.State(), shared, false)
    {
      ChannelsWalkNext(objs, inc, cid, start, specs, i);
      shared, abandoned := ApplyChannel(guild, objs, inc, cid, shared, specs[i]);
      if abandoned {
        ChannelsWalkStops(objs, inc, cid, start, specs, i + 1);
        return;
      }
      i := i + 1;
    }
    assert specs[..i] == specs;
  }

  // -------------------------------------------------------- category loop

  lemma WithOverwritesNone(cats: seq<Category>, cid: nat)
    ensures WithOverwrites(cats, cid, map[]) == cats
  {
    var r := WithOverwrites(cats, cid, map[]);
    forall i | 0 <= i < |cats| ensures r[i] == cats[i] {
      assert cats[i].overwrites + map[] == cats[i].overwrites;
    }
  }

  lemma WithOverwritesPut(cats: seq<Category>, cid: nat, ows: map<nat, PermMap>, rid: nat, ow: PermMap)
    ensures WithOverwrite(WithOverwrites(cats, cid, ows), cid, rid, ow) == WithOverwrites(cats, cid, ows[rid := ow])
  {
    var a := WithOverwrite(WithOverwrites(cats, cid, ows), cid, rid, ow);
    var b := WithOverwrites(cats, cid, ows[rid := ow]);
    forall i | 0 <= i < |cats| ensures a[i] == b[i] {
      if cats[i].id == cid {
        UnionPut(cats[i].overwrites, ows, rid, ow);
      }
    }
  }

  lemma UnionPut(m: map<nat, PermMap>, ows: map<nat, PermMap>, rid: nat, ow: PermMap)
    ensures (m + ows)[rid := ow] == m + ows[rid := ow]
  {
  }

  /** The overwrites already sent: those whose role is no longer to do. */
  ghost function Sent(ows: map<nat, PermMap>, todo: set<nat>): map<nat, PermMap> {
    map rid | rid in ows && rid !in todo :: ows[rid]
  }

  /** `for role, overwrite in overwrites.items(): await category.set_permissions(role, overwrite=overwrite)`. */
  method SetPermissions(guild: Guild, c: Category, ows: map<nat, PermMap>) returns (ok: bool)
    modifies guild
    ensures var r := SetPermissionsF(old(guild.State()), c, ows);
      ok == r.Some? && guild.State() == if ok then r.value else old(guild.State())
  {
    ghost var g0 := guild.State();
    var todo := ows.Keys;
    ok := true;
    WithOverwritesNone(g0.categories, c.id);
    assert Sent(ows, todo) == map[];
    while todo != {}
      invariant todo <= ows.Keys
      invariant todo != ows.Keys ==> c.name !in g0.rejects
      invariant guild.State() == g0.(categories := WithOverwrites(g0.categories, c.id, Sent(ows, todo)))
      decreases todo
    {
      var rid :| rid in todo;
      ghost var done := Sent(ows, todo);
      ok := guild.SetPermission(c, rid, ows[rid]);
      if !ok {
        assert done == map[];
        return;
      }
      WithOverwritesPut(g0.categories, c.id, done, rid, ows[rid]);
      todo := todo - {rid};
      assert Sent(ows, todo) == done[rid := ows[rid]];
    }
    assert Sent(ows, todo) == ows;
  }

  /** One category: its overwrites, its creation or update, then its channels. `aborted`: an error escaped. */
  method ApplyCategory(guild: Guild, objs: map<string, nat>, inc: Include, spec: CategoryDoc) returns (aborted: bool)
    modifies guild
    ensures CategoryStep(objs, inc, old(guild.State()), spec) == (guild.State(), aborted)
  {
    var ows := BuildOverwrites(Resolver(objs, guild.roles), spec.permissions.GetOr([]));
    if spec.name.None? {
      return true;
    }
    aborted := false;
    if ows.None? {
      return;
    }
    var n := spec.name.value;
    var existing := FindCategory(guild.categories, n);
    var cid: nat;
    if existing.Some? {
      var ok := SetPermissions(guild, existing.value, ows.value);
      if !ok {
        return;
      }
      cid := existing.value.id;
    } else {
      var created := guild.CreateCategory(n, ows.value);
      if created.None? {
        return;
      }
      cid := created.value;
    }
    var _ := ApplyChannels(guild, objs, inc, cid, ows.value, ChannelsOf(spec));
  }

  /** The walk over one more category is one more step, unless it already stopped. */
  lemma CategoriesWalkNext(objs: map<string, nat>, inc: Include, g: GuildState, specs: seq<CategoryDoc>, i: nat)
    requires i < |specs| && !CategoriesWalk(objs, inc, g, specs[..i]).1
    ensures CategoriesWalk(objs, inc, g, specs[..i + 1]) ==
      CategoryStep(objs, inc, CategoriesWalk(objs, inc, g, specs[..i]).0, specs[i])
  {
    assert specs[..i + 1][..i] == specs[..i];
  }

  method ApplyCategories(guild: Guild, objs: map<string, nat>, inc: Include, specs: seq<CategoryDoc>)
    returns (aborted: bool)
    modifies guild
    ensures CategoriesWalk(objs, inc, old(guild.State()), specs) == (guild.State(), aborted)
  {
    ghost var g0 := guild.State();
    var i := 0;
    while i < |specs|
      invariant 0 <= i <= |specs|
      invariant CategoriesWalk(objs, inc, g0, specs[..i]) == (guild.State(), false)
    {
      CategoriesWalkNext(objs, inc, g0, specs, i);
      aborted := ApplyCategory(guild, objs, inc, specs[i]);
      if aborted {
        CategoriesWalkStops(objs, inc, g0, specs, i + 1);
        return;
      }
      i := i + 1;
    }
    assert specs[..i] == specs;
    aborted := false;
  }

  // ------------------------------------------------------- the manager

  datatype Status = Pending | Approved | Rejected

  /** An entry of `user_templates['submissions']`: the document and its metadata. */
  datatype Submission = Submission(data: TemplateDoc, submittedBy: int, submittedAt: string, status: Status)

  // ------------------------------------------------------ listing helpers

  function DescriptionOf(t: TemplateDoc): string { t.description.GetOr("No description") }

  function CategoryOf(t: TemplateDoc): string { t.category.GetOr("Other") }

  /** The group of category `c` in a grouping, `{}` when there is none. */
  function Group(groups: Dict<Dict<string>>, c: string): Dict<string> {
    Get<Dict<string>>(groups, c).GetOr([])
  }

  /** What the grouping needs of a stored template: its name, its category and its description. */
  datatype Listing = Listing(name: string, category: string, description: string)

  function ListingOf(entry: (string, TemplateDoc)): Listing {
    Listing(entry.0, CategoryOf(entry.1), DescriptionOf(entry.1))
  }

  /** The grouping loop of `get_templates_by_category`, over the first listings of the store. */
  function ByCategory(ls: seq<Listing>): Dict<Dict<string>>
    decreases |ls|
  {
    if ls == [] then []
    else
      var acc := ByCategory(ls[..|ls| - 1]);
      var l := ls[|ls| - 1];
      Put<Dict<string>>(acc, l.category, Put(Group(acc, l.category), l.name, l.description))
  }

  /** Storing group `g` under `c` changes only the group of `c`. */
  lemma GroupPut(acc: Dict<Dict<string>>, c: string, g: Dict<string>, c': string)
    ensures Group(Put<Dict<string>>(acc, c, g), c') == if c' == c then g else Group(acc, c')
  {
    PutGetOr<Dict<string>>(acc, c, g, c', []);
  }

  /** One step of the grouping loop, seen from any group `c'` and name `m`. */
  lemma GroupStep(acc: Dict<Dict<string>>, c: string, n: string, d: string, c': string, m: string)
    ensures var r := Put<Dict<string>>(acc, c, Put(Group(acc, c), n, d));
      && (c' in Keys(r) <==> c' == c || c' in Keys(acc))
      && Get(Group(r, c'), m) == if c' == c && m == n then Some(d) else Get(Group(acc, c'), m)
  {
    var g := Put(Group(acc, c), n, d);
    PutKeys(acc, c, g);
    GroupPut(acc, c, g, c');
    PutGet(Group(acc, c), n, d, m);
  }

  /** The last iteration of the grouping loop, seen from group `c` and name `m`. */
  lemma ByCategoryStep(ls: seq<Listing>, c: string, m: string)
    requires ls != []
    ensures var l := ls[|ls| - 1]; var acc := ByCategory(ls[..|ls| - 1]); var r := ByCategory(ls);
      && (c in Keys(r) <==> c == l.category || c in Keys(acc))
      && Get(Group(r, c), m) == if c == l.category && m == l.name then Some(l.description) else Get(Group(acc, c), m)
  {
    var l := ls[|ls| - 1];
    GroupStep(ByCategory(ls[..|ls| - 1]), l.category, l.name, l.description, c, m);
  }

  lemma ByCategoryAppend(ls: seq<Listing>, i: nat)
    requires i < |ls|
    ensures var acc := ByCategory(ls[..i]); var l := ls[i];
      ByCategory(ls[..i + 1]) == Put(acc, l.category, Put(Group(acc, l.category), l.name, l.description))
  {
    assert ls[..i + 1][..i] == ls[..i];
  }

  /** Some listing among `ls[lo..hi]` has the name `n`. */
  predicate NameIn(ls: seq<Listing>, lo: nat, hi: nat, n: string)
    requires lo <= hi <= |ls|
    decreases hi - lo
  {
    hi > lo && (ls[hi - 1].name == n || NameIn(ls, lo, hi - 1, n))
  }

  lemma {:induction false} NameInPrefix(ls: seq<Listing>, m: nat, lo: nat, hi: nat, n: string)
    requires lo <= hi <= m <= |ls|
    ensures NameIn(ls[..m], lo, hi, n) == NameIn(ls, lo, hi, n)
    decreases hi - lo
  {
    if hi > lo {
      assert ls[..m][hi - 1] == ls[hi - 1];
      NameInPrefix(ls, m, lo, hi - 1, n);
    }
  }

  /** `NameIn` holds exactly when some listing in the range has the name. */
  lemma {:induction false} NameInRange(ls: seq<Listing>, lo: nat, hi: nat, n: string)
    requires lo <= hi <= |ls|
    ensures NameIn(ls, lo, hi, n) <==> exists j :: lo <= j < hi && ls[j].name == n
    decreases hi - lo
  {
    if hi > lo {
      NameInRange(ls, lo, hi - 1, n);
    }
  }

  /** A listing that no later listing shadows stays listed under its category, with its description. */
  lemma {:induction false} ByCategoryListsAll(ls: seq<Listing>, i: nat)
    requires i < |ls| && !NameIn(ls, i + 1, |ls|, ls[i].name)
    ensures Get(Group(ByCategory(ls), ls[i].category), ls[i].name) == Some(ls[i].description)
  {
    var k := |ls| - 1;
    if i < k {
      var init := ls[..k];
      assert init[i] == ls[i];
      assert ls[k].name != ls[i].name;
      NameInPrefix(ls, k, i + 1, k, ls[i].name);
      ByCategoryListsAll(init, i);
      ByCategoryKeepsOther(ls, ls[i].category, ls[i].name);
    } else {
      ByCategoryStep(ls, ls[i].category, ls[i].name);
    }
  }

  /** A listing of another name leaves the entry for `m` in every group as it was. */
  lemma ByCategoryKeepsOther(ls: seq<Listing>, c: string, m: string)
    requires ls != [] && ls[|ls| - 1].name != m
    ensures Get(Group(ByCategory(ls), c), m) == Get(Group(ByCategory(ls[..|ls| - 1]), c), m)
  {
    ByCategoryStep(ls, c, m);
  }

  /** The store as the grouping sees it. */
  function Listings(ts: seq<(string, TemplateDoc)>): (ls: seq<Listing>)
    ensures |ls| == |ts| && forall i :: 0 <= i < |ls| ==> ls[i] == ListingOf(ts[i])
  {
    seq(|ts|, i requires 0 <= i < |ts| => ListingOf(ts[i]))
  }

  /** In the grouping of a store, every template is listed under its category with its description. */
  lemma GroupingListsEveryTemplate(ts: Dict<TemplateDoc>, i: nat)
    requires i < |ts|
    ensures Get(Group(ByCategory(Listings(ts)), CategoryOf(ts[i].1)), ts[i].0) == Some(DescriptionOf(ts[i].1))
  {
    var ls := Listings(ts);
    NameInRange(ls, i + 1, |ls|, ls[i].name);
    ByCategoryListsAll(ls, i);
  }

  /** Every group of the grouping is the category of some template. */
  lemma {:induction false} ByCategoryGroupsSound(ls: seq<Listing>, c: string)
    requires c in Keys(ByCategory(ls))
    ensures exists i :: 0 <= i < |ls| && ls[i].category == c
  {
    if ls != [] {
      var k := |ls| - 1;
      ByCategoryStep(ls, c, c);
      if c != ls[k].category {
        var init := ls[..k];
        ByCategoryGroupsSound(init, c);
        var i :| 0 <= i < |init| && init[i].category == c;
        PrefixAt(ls, k, i);
      }
    }
  }

  /** Every name in a group is a template of that group's category. */
  lemma {:induction false} ByCategoryMembersSound(ls: seq<Listing>, c: string, m: string)
    requires Get(Group(ByCategory(ls), c), m).Some?
    ensures exists i :: 0 <= i < |ls| && ls[i].name == m && ls[i].category == c
  {
    if ls != [] {
      var k := |ls| - 1;
      ByCategoryStep(ls, c, m);
      if !(c == ls[k].category && m == ls[k].name) {
        var init := ls[..k];
        ByCategoryMembersSound(init, c, m);
        var i :| 0 <= i < |init| && init[i].name == m && init[i].category == c;
        PrefixAt(ls, k, i);
      }
    }
  }

  /** `{name: template.get('description', 'No description') ...}` over the store. */
  function DescriptionList(ts: Dict<TemplateDoc>): (r: Dict<string>)
    ensures Keys(r) == Keys(ts)
    ensures forall n :: Get(ts, n).Some? ==> Get(r, n) == Some(DescriptionOf(Get(ts, n).value))
    ensures forall n :: Get(ts, n).None? ==> Get(r, n).None?
  {
    var r := seq(|ts|, i requires 0 <= i < |ts| => (ts[i].0, DescriptionOf(ts[i].1)));
    assert Keys(r) == Keys(ts);
    assert DistinctKeys(r);
    forall n | Get(ts, n).Some? ensures Get(r, n) == Some(DescriptionOf(Get(ts, n).value)) {
      var i := IndexOf(ts, n);
      GetAt(ts, i);
      GetAt(r, i);
    }
    r
  }

  /** The fields `submit_template` requires before it stores anything. */
  predicate Submittable(doc: TemplateDoc) {
    doc.name.Some? && doc.description.Some? && doc.category.Some? && doc.roles.Some? && doc.categories.Some?
  }

  /** `f"{guild.id}_{timestamp}.json"`. */
  function BackupFileName(guildId: nat, stamp: string): string {
    Decimal(guildId) + "_" + stamp + ".json"
  }

  /** Two backups share a file only when they are of the same guild at the same timestamp. */
  lemma BackupFileNameInjective(g1: nat, s1: string, g2: nat, s2: string)
    requires BackupFileName(g1, s1) == BackupFileName(g2, s2)
    ensures g1 == g2 && s1 == s2
  {
    assert BackupFileName(g1, s1) == Decimal(g1) + ['_'] + (s1 + ".json");
    assert BackupFileName(g2, s2) == Decimal(g2) + ['_'] + (s2 + ".json");
    DecimalTagged(g1, g2, '_', s1 + ".json", s2 + ".json");
    assert s1 == (s1 + ".json")[..|s1|] == s2;
  }

  class TemplateManager {
    /** The built-in templates, by name, in file order. */
    var templates: Dict<TemplateDoc>
    /** `user_templates['submissions']`; None while that key is absent. */
    var submissions: Option<Dict<Submission>>
    /** The files of the backup directory that this manager wrote, by file name. */
    var backupFiles: map<string, TemplateDoc>

    constructor (builtIn: Dict<TemplateDoc>, userSubmissions: Option<Dict<Submission>>)
      ensures templates == builtIn && submissions == userSubmissions && backupFiles == map[]
    {
      templates, submissions, backupFiles := builtIn, userSubmissions, map[];
    }

    /** `get_template(name)`: the stored template, or `{}` for an unknown name. */
    function GetTemplate(name: string): (t: TemplateDoc)
      reads this
      ensures name in Keys(templates) ==> Some(t) == Get(templates, name)
      ensures name !in Keys(templates) ==> IsEmpty(t)
    {
      Get(templates, name).GetOr(EmptyTemplate)
    }

    /** `get_template_names()`: the store's names, in store order. */
    function GetTemplateNames(): (names: seq<string>)
      reads this
      ensures |names| == |templates| && forall i :: 0 <= i < |names| ==> names[i] == templates[i].0
    {
      Keys(templates)
    }

    /** `get_template_list()`: name -> description, in store order. */
    function GetTemplateList(): Dict<string>
      reads this
    {
      DescriptionList(templates)
    }

    /** `get_templates_by_category()`: one loop over the store, grouping names and descriptions. */
    method GetTemplatesByCategory() returns (groups: Dict<Dict<string>>)
      ensures groups == ByCategory(Listings(templates))
    {
      ghost var ls := Listings(templates);
      groups := [];
      for i := 0 to |templates|
        invariant groups == ByCategory(ls[..i])
      {
        var n, c, d := templates[i].0, CategoryOf(templates[i].1), DescriptionOf(templates[i].1);
        var group := Get<Dict<string>>(groups, c).GetOr([]);
        groups := Put<Dict<string>>(groups, c, Put(group, n, d));
        ByCategoryAppend(ls, i);
      }
      assert ls[..|templates|] == ls;
    }

    /**
     * `backup_server(guild)`: the guild's backup document, made on `date`; it
     * is stored under `BackupFileName(guild.id, stamp)` when the write
     * succeeds and returned either way.
     */
    method BackupServer(guild: Guild, date: string, stamp: string, writeOk: bool) returns (backup: TemplateDoc)
      modifies this
      ensures backup == BackupOf(guild.State(), date)
      ensures templates == old(templates) && submissions == old(submissions)
      ensures backupFiles == if writeOk then old(backupFiles)[BackupFileName(guild.id, stamp) := backup]
                             else old(backupFiles)
    {
      backup := SerializeGuild(guild.State(), date);
      if writeOk {
        backupFiles := backupFiles[BackupFileName(guild.id, stamp) := backup];
      }
    }

    /**
     * `submit_template(user_id, template_data)`: without one of the required
     * fields nothing is stored and the answer is False; otherwise the
     * submission replaces any earlier one of the same name, pending review,
     * and the answer is whether the file was saved (`saveOk`).
     */
    method SubmitTemplate(userId: int, doc: TemplateDoc, now: string, saveOk: bool) returns (ok: bool)
      modifies this
      ensures templates == old(templates)
      ensures !Submittable(doc) ==> !ok && submissions == old(submissions)
      ensures Submittable(doc) ==>
        ok == saveOk &&
        submissions == Some(Put(old(submissions).GetOr([]), doc.name.value, Submission(doc, userId, now, Pending)))
    {
      if !Submittable(doc) {
        return false;
      }
      var store := submissions.GetOr([]);
      submissions := Some(Put(store, doc.name.value, Submission(doc, userId, now, Pending)));
      ok := saveOk;
    }

    /**
     * `generate_preview(template_name, user_id, guild_id)`: the preview of the
     * stored template; a view is recorded only for a known template and a
     * truthy user id.
     */
    method GeneratePreview(templateName: string, userId: Option<int>, guildId: Option<nat>, tracker: UsageTracker)
      returns (p: Preview)
      modifies tracker
      ensures p == PreviewOf(templateName, GetTemplate(templateName))
      ensures tracker.events == old(tracker.events) +
        if !IsEmpty(GetTemplate(templateName)) && Truthy(userId) then [ViewEvent(templateName, userId.value, guildId)] else []
    {
      var t := GetTemplate(templateName);
      if IsEmpty(t) {
        p := BuildPreview(templateName, t);
        return;
      }
      if Truthy(userId) {
        tracker.TrackTemplateView(templateName, userId.value, guildId);
      }
      p := BuildPreview(templateName, t);
    }

    /** The `is_ai_generated` flag the usage event carries. */
    function IsAiGenerated(name: string): bool
      reads this
    {
      var t := GetTemplate(name);
      if IsEmpty(t) then false else t.isAiGenerated.GetOr(false)
    }

    /**
     * `apply_template(guild, template_name, options, user_id)`. An unknown
     * template raises before the guild is touched. Otherwise the guild ends in
     * the state of `Walk` under the effective options, and an error escapes
     * only when a role or category has no name. Exactly one usage event is
     * recorded when `user_id` is truthy, none otherwise; it reports success
     * iff nothing escaped.
     */
    method ApplyTemplate(guild: Guild, templateName: string, options: Option<Options>, userId: Option<int>,
                         tracker: UsageTracker) returns (raised: Option<ApplyError>)
      modifies guild, tracker
      ensures IsEmpty(GetTemplate(templateName)) ==>
        raised == Some(TemplateNotFound) && guild.State() == old(guild.State())
      ensures !IsEmpty(GetTemplate(templateName)) ==>
        var w := Walk(old(guild.State()), GetTemplate(templateName), Effective(options.GetOr(NoOptions)));
        guild.State() == w.g && raised == (if w.aborted then Some(MissingName) else None)
      ensures tracker.events == old(tracker.events) +
        if Truthy(userId) then
          [UsageEvent(templateName, guild.id, guild.name, userId.value, IsAiGenerated(templateName),
                      if IsEmpty(GetTemplate(templateName)) then options else Some(options.GetOr(NoOptions)),
                      raised.None?)]
        else []
    {
      var success := false;
      var recorded := options;
      var template := GetTemplate(templateName);
      if IsEmpty(template) {
        raised := Some(TemplateNotFound);
      } else {
        var opts := options.GetOr(NoOptions);
        recorded := Some(opts);
        var inc := Effective(opts);
        var objs: map<string, nat> := map[];
        var aborted := false;
        if inc.roles {
          objs, aborted := ApplyRoles(guild, Roles(template));
        }
        if !aborted && inc.categories {
          aborted := ApplyCategories(guild, objs, inc, Categories(template));
        }
        if aborted {
          raised := Some(MissingName);
        } else {
          success := true;
          raised := None;
        }
      }
      // finally:
      if Truthy(userId) {
        tracker.TrackTemplateUsage(templateName, guild.id, guild.name, userId.value,
                                   IsAiGenerated(templateName), recorded, success);
      }
    }
  }
}
