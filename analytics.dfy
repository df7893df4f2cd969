/**
 * The usage tracker the template manager notifies. Its database work is not
 * modelled: it is the log of events it has been asked to record.
 */
module Analytics {
  import opened Wrappers
  import opened Documents

  datatype Event =
    | UsageEvent(templateName: string, guildId: nat, guildName: string, userId: int,
                 isAiGenerated: bool, options: Option<Options>, success: bool)
    | ViewEvent(viewedName: string, viewerId: int, viewGuildId: Option<nat>)

  class UsageTracker {
    var events: seq<Event>

    constructor ()
      ensures events == []
    {
      events := [];
    }

    /** `track_template_usage(...)`. */
    method TrackTemplateUsage(templateName: string, guildId: nat, guildName: string, userId: int,
                              isAiGenerated: bool, options: Option<Options>, success: bool)
      modifies this
      ensures events == old(events) + [UsageEvent(templateName, guildId, guildName, userId, isAiGenerated, options, success)]
    {
      events := events + [UsageEvent(templateName, guildId, guildName, userId, isAiGenerated, options, success)];
    }

    /** `track_template_view(...)`. */
    method TrackTemplateView(templateName: string, userId: int, guildId: Option<nat>)
      modifies this
      ensures events == old(events) + [ViewEvent(templateName, userId, guildId)]
    {
      events := events + [ViewEvent(templateName, userId, guildId)];
    }
  }
}
