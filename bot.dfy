/**
 * The command bookkeeping of the bot: per-user, per-command cooldowns kept
 * in a dictionary of last-use times, the set of commands currently refused
 * for rate limiting, the count of running operations, and the creation
 * counts the `/customize` confirmation shows. Times are whole seconds.
 */
module Bot {
  import opened Wrappers
  import opened Text
  import opened Guilds
  import opened Documents
  import opened Apply
  import opened ApplyProperties

  // ------------------------------------------------------------- cooldowns

  /** The commands that apply a template. */
  const TemplateCommands: set<string> := {"customize", "gaming", "community", "content", "serverhub", "promohub"}

  /** The cooldown of a command, in seconds. */
  function Cooldown(command: string): (c: nat)
    ensures c == 30 <==> command in TemplateCommands
    ensures c == 60 <==> command == "backup"
    ensures c == 120 <==> command == "ai-template"
    ensures c == 3 <==> command !in TemplateCommands && command != "backup" && command != "ai-template"
  {
    if command in TemplateCommands then 30
    else if command == "backup" then 60
    else if command == "ai-template" then 120
    else 3
  }

  /** `f"{user_id}:{command_name}"`. */
  function UsageKey(userId: nat, command: string): string {
    Decimal(userId) + ":" + command
  }

  /** Distinct (user, command) pairs never share a usage entry. */
  lemma UsageKeyInjective(u1: nat, c1: string, u2: nat, c2: string)
    requires UsageKey(u1, c1) == UsageKey(u2, c2)
    ensures u1 == u2 && c1 == c2
  {
    assert UsageKey(u1, c1) == Decimal(u1) + [':'] + c1;
    assert UsageKey(u2, c2) == Decimal(u2) + [':'] + c2;
    DecimalTagged(u1, u2, ':', c1, c2);
  }

  /** `check_rate_limit`'s answer: allowed, or refused with the seconds still to wait. */
  datatype Verdict = Verdict(allowed: bool, wait: int)

  /** The answer for `key` at time `now`, given the recorded last-use times. */
  function RateLimit(usages: map<string, int>, key: string, cooldown: nat, now: int): (v: Verdict)
    ensures !v.allowed <==> key in usages && now - usages[key] < cooldown
    ensures v.allowed ==> v.wait == 0
    ensures !v.allowed ==> v.wait == cooldown - (now - usages[key])
  {
    if key in usages && now - usages[key] < cooldown then Verdict(false, cooldown - (now - usages[key]))
    else Verdict(true, 0)
  }

  /** The last-use times after the check: the time is recorded only for an allowed call. */
  function Recorded(usages: map<string, int>, key: string, cooldown: nat, now: int): map<string, int> {
    if RateLimit(usages, key, cooldown, now).allowed then usages[key := now] else usages
  }

  /** A refused call on a clock that has not gone back waits a positive time no longer than the cooldown. */
  lemma WaitBounded(usages: map<string, int>, key: string, cooldown: nat, now: int)
    requires !RateLimit(usages, key, cooldown, now).allowed && usages[key] <= now
    ensures 0 < RateLimit(usages, key, cooldown, now).wait <= cooldown
  {
  }

  /**
   * After an allowed call, the same user and command is refused for exactly
   * the cooldown: `d` seconds later it waits `cooldown - d` while `d` is below
   * the cooldown, and is allowed from then on.
   */
  lemma CooldownWindow(usages: map<string, int>, key: string, cooldown: nat, now: int, d: nat)
    requires RateLimit(usages, key, cooldown, now).allowed
    ensures var later := RateLimit(Recorded(usages, key, cooldown, now), key, cooldown, now + d);
      later == if d < cooldown then Verdict(false, cooldown - d) else Verdict(true, 0)
  {
  }

  /** A call by one user for one command never changes the answer for another user or command. */
  lemma RateLimitIndependent(usages: map<string, int>, u1: nat, c1: string, now1: int,
                             u2: nat, c2: string, now2: int)
    requires u1 != u2 || c1 != c2
    ensures var after := Recorded(usages, UsageKey(u1, c1), Cooldown(c1), now1);
      RateLimit(after, UsageKey(u2, c2), Cooldown(c2), now2) == RateLimit(usages, UsageKey(u2, c2), Cooldown(c2), now2)
  {
    if UsageKey(u1, c1) == UsageKey(u2, c2) {
      UsageKeyInjective(u1, c1, u2, c2);
    }
  }

  // ---------------------------------------------------------- the wrapper

  /** `func.__name__` with a trailing `_command` removed. */
  function CommandName(funcName: string): (c: string)
    ensures |funcName| >= 8 && funcName[|funcName| - 8..] == "_command" ==> funcName == c + "_command"
    ensures !(|funcName| >= 8 && funcName[|funcName| - 8..] == "_command") ==> c == funcName
  {
    if |funcName| >= 8 && funcName[|funcName| - 8..] == "_command" then funcName[..|funcName| - 8] else funcName
  }

  /** The command name of `<c>_command` is `c`. */
  lemma CommandNameStrips(c: string)
    ensures CommandName(c + "_command") == c
  {
    var f := c + "_command";
    assert f[|f| - 8..] == "_command";
    assert f[..|f| - 8] == c;
  }

  /** How a command that ran ended. */
  datatype Outcome =
    | Completed
    | Forbidden                 // discord.Forbidden
    | HttpFailure(status: int)  // discord.HTTPException
    | Crashed                   // any other exception

  /** The bot-wide bookkeeping kept in `bot_status`. */
  class BotStatus {
    var commandUsages: map<string, int>
    var rateLimitedCommands: set<string>
    var activeOperations: int

    constructor ()
      ensures commandUsages == map[] && rateLimitedCommands == {} && activeOperations == 0
    {
      commandUsages, rateLimitedCommands, activeOperations := map[], {}, 0;
    }

    /** `check_rate_limit(command_name, user_id)` at time `now`. */
    method CheckRateLimit(command: string, userId: nat, now: int) returns (allowed: bool, wait: int)
      modifies this
      ensures Verdict(allowed, wait) == RateLimit(old(commandUsages), UsageKey(userId, command), Cooldown(command), now)
      ensures commandUsages == Recorded(old(commandUsages), UsageKey(userId, command), Cooldown(command), now)
      ensures rateLimitedCommands == old(rateLimitedCommands) && activeOperations == old(activeOperations)
    {
      var cooldown := Cooldown(command);
      var key := UsageKey(userId, command);
      if key in commandUsages {
        var lastUse := commandUsages[key];
        if now - lastUse < cooldown {
          return false, cooldown - (now - lastUse);
        }
      }
      commandUsages := commandUsages[key := now];
      return true, 0;
    }

    /**
     * The wrapper around a command function named `funcName`, called by
     * `userId` at `now`; the command, if it runs, ends with `outcome`. A
     * refused call marks the command rate limited and runs nothing; an
     * allowed one clears the mark (a 429 from the remote sets it again) and
     * counts itself as an active operation while it runs.
     */
    method Invoke(funcName: string, userId: nat, now: int, outcome: Outcome) returns (ran: bool, wait: int)
      modifies this
      ensures var cmd := CommandName(funcName);
        var v := RateLimit(old(commandUsages), UsageKey(userId, cmd), Cooldown(cmd), now);
        && ran == v.allowed && wait == v.wait
        && commandUsages == Recorded(old(commandUsages), UsageKey(userId, cmd), Cooldown(cmd), now)
        && rateLimitedCommands == (if !ran then old(rateLimitedCommands) + {cmd}
                                   else if outcome == HttpFailure(429) then old(rateLimitedCommands) + {cmd}
                                   else old(rateLimitedCommands) - {cmd})
        && activeOperations == old(activeOperations)
    {
      var command := CommandName(funcName);
      var allowed;
      allowed, wait := CheckRateLimit(command, userId, now);
      if !allowed {
        rateLimitedCommands := rateLimitedCommands + {command};
        return false, wait;
      }
      if command in rateLimitedCommands {
        rateLimitedCommands := rateLimitedCommands - {command};
      }
      activeOperations := activeOperations + 1;
      if outcome == HttpFailure(429) {
        rateLimitedCommands := rateLimitedCommands + {command};
      }
      activeOperations := activeOperations - 1;
      ran := true;
    }
  }

  // ------------------------------------------------- /customize confirmation

  /** What the confirmation announces. */
  datatype Counts = Counts(roles: nat, categories: nat, channels: nat)

  /** Whether the confirmation counts a channel: text if text is included, voice if voice is included. */
  predicate Counted(inc: Include, spec: ChannelDoc) {
    (KindOf(spec) == "text" && inc.text) || (KindOf(spec) == "voice" && inc.voice)
  }

  function CountedIn(inc: Include, chans: seq<ChannelDoc>): nat {
    if chans == [] then 0 else CountedIn(inc, chans[..|chans| - 1]) + if Counted(inc, chans[|chans| - 1]) then 1 else 0
  }

  function CountedChannels(inc: Include, cats: seq<CategoryDoc>): nat {
    if cats == [] then 0 else CountedChannels(inc, cats[..|cats| - 1]) + CountedIn(inc, ChannelsOf(cats[|cats| - 1]))
  }

  /** The counts the confirmation shows for template `t` and the chosen flags. */
  function CustomizeCountsOf(t: TemplateDoc, inc: Include): Counts {
    Counts(if inc.roles then |Roles(t)| else 0,
           if inc.categories then |Categories(t)| else 0,
           if inc.text || inc.voice then CountedChannels(inc, Categories(t)) else 0)
  }

  /** The number of channels of one type, over all categories (reference definition). */
  function OfKind(kind: string, cats: seq<CategoryDoc>): nat {
    if cats == [] then 0 else OfKind(kind, cats[1..]) + KindIn(kind, ChannelsOf(cats[0]))
  }

  function KindIn(kind: string, chans: seq<ChannelDoc>): nat {
    if chans == [] then 0 else KindIn(kind, chans[1..]) + if KindOf(chans[0]) == kind then 1 else 0
  }

  lemma {:induction false} KindInLast(kind: string, chans: seq<ChannelDoc>)
    requires chans != []
    ensures KindIn(kind, chans) == KindIn(kind, chans[..|chans| - 1]) + if KindOf(chans[|chans| - 1]) == kind then 1 else 0
  {
    if |chans| > 1 {
      assert chans[1..][..|chans[1..]| - 1] == chans[..|chans| - 1][1..];
      KindInLast(kind, chans[1..]);
    }
  }

  lemma {:induction false} CountedInByKind(inc: Include, chans: seq<ChannelDoc>)
    ensures CountedIn(inc, chans) ==
      (if inc.text then KindIn("text", chans) else 0) + (if inc.voice then KindIn("voice", chans) else 0)
  {
    if chans != [] {
      CountedInByKind(inc, chans[..|chans| - 1]);
      KindInLast("text", chans);
      KindInLast("voice", chans);
    }
  }

  lemma {:induction false} OfKindLast(kind: string, cats: seq<CategoryDoc>)
    requires cats != []
    ensures OfKind(kind, cats) == OfKind(kind, cats[..|cats| - 1]) + KindIn(kind, ChannelsOf(cats[|cats| - 1]))
  {
    if |cats| > 1 {
      assert cats[1..][..|cats[1..]| - 1] == cats[..|cats| - 1][1..];
      OfKindLast(kind, cats[1..]);
    }
  }

  /**
   * The channel count is the number of text channels (if included) plus the
   * number of voice channels (if included), a missing type counting as text;
   * forum and other channels are never counted.
   */
  lemma {:induction false} ChannelCountByKind(inc: Include, cats: seq<CategoryDoc>)
    ensures CountedChannels(inc, cats) ==
      (if inc.text then OfKind("text", cats) else 0) + (if inc.voice then OfKind("voice", cats) else 0)
  {
    if cats != [] {
      ChannelCountByKind(inc, cats[..|cats| - 1]);
      CountedInByKind(inc, ChannelsOf(cats[|cats| - 1]));
      OfKindLast("text", cats);
      OfKindLast("voice", cats);
    }
  }

  /**
   * The confirmation and the application disagree when `include_categories`
   * is off: application then leaves the channels as they are, while the
   * confirmation still counts every included channel of the template.
   */
  lemma CustomizeCountsDiverge(g: GuildState, t: TemplateDoc, inc: Include)
    requires !inc.categories && (inc.text || inc.voice)
    ensures Walk(g, t, inc).g.channels == g.channels
    ensures CustomizeCountsOf(t, inc).categories == 0
    ensures CustomizeCountsOf(t, inc).channels ==
      (if inc.text then OfKind("text", Categories(t)) else 0) + (if inc.voice then OfKind("voice", Categories(t)) else 0)
  {
    WalkWithoutCategories(g, t, inc);
    ChannelCountByKind(inc, Categories(t));
  }

  /** One category with one channel of no stated type: one channel announced, none created. */
  lemma CustomizeOvercountExample(g: GuildState)
    ensures var chan := ChannelDoc(Some("general"), None, None, None, None, None, None, None);
      var t := TemplateDoc(Some("t"), None, None, None, None, Some([CategoryDoc(Some("Info"), None, Some([chan]))]), None, false);
      var inc := Include(true, false, true, true);
      CustomizeCountsOf(t, inc).channels == 1 && Walk(g, t, inc).g.channels == g.channels
  {
    var chan := ChannelDoc(Some("general"), None, None, None, None, None, None, None);
    var t := TemplateDoc(Some("t"), None, None, None, None, Some([CategoryDoc(Some("Info"), None, Some([chan]))]), None, false);
    var inc := Include(true, false, true, true);
    WalkWithoutCategories(g, t, inc);
    assert [chan][..0] == [];
    assert [CategoryDoc(Some("Info"), None, Some([chan]))][..0] == [];
  }

  /** The count computation: the role and category counts, then the channel loop nested in the category loop. */
  method CustomizeCounts(t: TemplateDoc, inc: Include) returns (c: Counts)
    ensures c == CustomizeCountsOf(t, inc)
  {
    var roleCount := if inc.roles then |Roles(t)| else 0;
    var categoryCount := if inc.categories then |Categories(t)| else 0;
    var channelCount := 0;
    if inc.text || inc.voice {
      var cats := Categories(t);
      for i := 0 to |cats|
        invariant channelCount == CountedChannels(inc, cats[..i])
      {
        assert cats[..i + 1][..i] == cats[..i];
        var chans := ChannelsOf(cats[i]);
        ghost var before := channelCount;
        for j := 0 to |chans|
          invariant channelCount == before + CountedIn(inc, chans[..j])
        {
          assert chans[..j + 1][..j] == chans[..j];
          var kind := KindOf(chans[j]);
          if (kind == "text" && inc.text) || (kind == "voice" && inc.voice) {
            channelCount := channelCount + 1;
          }
        }
        assert chans[..|chans|] == chans;
      }
      assert cats[..|cats|] == cats;
    }
    c := Counts(roleCount, categoryCount, channelCount);
  }
}
