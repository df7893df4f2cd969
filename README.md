# ServerSetup template core in Dafny

ServerSetup is a chat-server bot that builds a server ("guild") from a
template. A template is a JSON document that lists roles and categories, and
each category lists its channels and per-role permission overwrites. This
project models the core of the bot:

- **The template manager.** It covers the template store and its listings,
  the preview of a template, and `apply_template`. That method creates the
  missing roles, categories and channels of a template in a guild, and it
  records a usage event.
- **`backup_server`.** It serialises a guild back into a template document.
- **Submissions.** `submit_template` stores a user submission.
- **The guild helpers.** `create_role`, `create_category`,
  `create_text_channel`, `create_voice_channel` and
  `build_permission_overwrites`.
- **The bot's command bookkeeping.** This covers per-user, per-command
  cooldowns, the set of rate-limited commands, and the counts the
  `/customize` confirmation announces.

The remote guild is a class, `Guilds.Guild`. Its state is the value
`GuildState`. Each remote call (create a role, category or channel, or set a
permission) is specified by a pure function of that state. The remote can
refuse a call; the set `rejects` says which names it refuses, and a refusal
stands for an exception in the source.

Template application is imperative, as in the source: loops, `try`/`except`
scopes, and overwrite objects shared between a category and its channels. The
imperative methods of `Templates` are proved to end in exactly the state that
the pure walks of module `Apply` describe. The properties are then proved about
those walks in `ApplyProperties`. For example:

- existing roles and channels are reused, not created again;
- a failing role is skipped;
- a failing category is abandoned, but the walk goes on;
- only a missing `name` makes the whole application fail;
- the include flags filter what is created;
- each channel permission key takes the last value written to it.

The backup is likewise built in loops (module `Backups`) and proved equal to
the function `BackupOf`. Properties of that function are proved too:

- roles are written highest first, without the default role and managed roles;
- colours and permissions read back to what they were;
- a channel overwrite is written only when it differs from the category's.

Modules, one per concern:

- `Wrappers` and `Dicts` hold optional values and insertion-ordered
  dictionaries.
- `Text` holds `int(s, 16)`, `f"0x{v:06x}"` and `str(n)`.
- `Permissions` holds permission names and overwrites.
- `Guilds` is the remote guild.
- `Documents` is the template document.
- `Overwrites` resolves a `permissions` mapping into overwrites.
- `Apply` and `ApplyProperties` cover template application.
- `Previews` covers `generate_preview`.
- `Backups` covers `backup_server`.
- `Analytics` is the usage tracker, modelled as an event log.
- `Templates` is the `TemplateManager` class.
- `Helpers` holds `discord_helpers`.
- `Bot` holds the bookkeeping in `bot.py`.

## Model

| member | source | states |
|---|---|---|
| Text.ColorRoundTrip | utils/template_manager.py:384 | A colour written by the backup as `0x` plus zero-padded hex reads back through `int(s, 16)` as the same value. |
| Text.FormatColorLength | utils/template_manager.py:384 | A 24-bit colour is written with exactly six digits after `0x`. |
| Text.ZeroPad | utils/template_manager.py:384 | The `06` padding: the digits stay last and unchanged, every character before them is `0`, and the result is at least six long and never shorter than the digits. |
| Text.DecimalInjective | bot.py:158 | Distinct user ids print as distinct decimal strings. |
| Text.DecimalTagged | bot.py:158 | Two strings of the form `str(n) + sep + rest`, where the separator is not a digit, are equal only when both the numbers and the rests are equal. |
| Permissions.NewOverwrite | utils/template_manager.py:252 | `PermissionOverwrite(**perms)` succeeds exactly when every name is a permission. It then holds exactly those entries. |
| Permissions.SetEach | utils/template_manager.py:294-298 | Applying `setattr` per entry succeeds exactly when every name is a permission. Mentioned keys take the new value, and every other key keeps its base value. |
| Permissions.Granted | utils/template_manager.py:223-228 | The granted flags are exactly the entries that are known permissions and set to True. Unknown names are ignored. |
| Permissions.Explicit | utils/template_manager.py:408-418 | `overwrite.pair()` read back gives exactly the explicit entries with their values. |
| Permissions.ExplicitOfOverwrite | utils/template_manager.py:408-418 | Reading back an overwrite that holds only permissions returns it unchanged. |
| Guilds.FindNamed | utils/template_manager.py:217 | The lookup by name returns the first item of that name in the list, and returns None exactly when no item has the name. |
| Guilds.FindRole | utils/template_manager.py:217 | The lookup by name returns the first role of that name, and returns None exactly when no role has the name. |
| Guilds.FindCategory | utils/template_manager.py:257 | The category lookup returns the first category of that name, and returns None exactly when there is none. |
| Guilds.FindChannelIn | utils/template_manager.py:279 | The lookup within a category returns the first channel of that category with that name, and returns None exactly when there is none. |
| Guilds.CreateRoleF | utils/template_manager.py:230-237 | A role is created exactly when the name is accepted and the colour fits 24 bits. It gets the next id. Exactly that role is added, and nothing else changes. |
| Guilds.CreateCategoryF | utils/template_manager.py:266-270 | An accepted category is appended with its overwrites and the next id. |
| Guilds.WithOverwrite | utils/template_manager.py:263 | Exactly the target category gets the role's overwrite. Every other category is unchanged. |
| Guilds.SetPermissionF | utils/template_manager.py:263 | The update succeeds exactly when the category is accepted. It then changes only that category. |
| Guilds.CreateChannelF | utils/template_manager.py:300-326 | An accepted channel is appended with its kind, parent, overwrites and the next id. |
| Guilds.Guild.CreateRole | utils/template_manager.py:230-237 | The guild's new state and the returned id are those of `CreateRoleF`. A refused call changes nothing. |
| Guilds.Guild.CreateCategory | utils/template_manager.py:266-270 | The guild's new state and id are those of `CreateCategoryF`. A refused call changes nothing. |
| Guilds.Guild.SetPermission | utils/template_manager.py:263 | The guild's new state is that of `SetPermissionF`. A refused call changes nothing. |
| Guilds.Guild.CreateChannel | utils/template_manager.py:300-326 | The guild's new state and id are those of `CreateChannelF`. A refused call changes nothing. |
| Documents.Effective | utils/template_manager.py:200-208 | Each include flag is True unless the options say False. A missing option counts as True. |
| Overwrites.BuildSpec | utils/template_manager.py:248-253 | The overwrite build fails exactly when a resolved entry names an unknown permission. Otherwise its keys are exactly the resolved roles, and each role has the permissions of the last entry resolving to it. |
| Overwrites.BuildOverwrites | utils/template_manager.py:248-253 | The loop fills the overwrites entry by entry and produces exactly `Build`. |
| Overwrites.BuildStops | utils/template_manager.py:246-253 | Once an entry has raised, the later entries do not matter. |
| Apply.Resolve | utils/template_manager.py:250 | `role_objects.get(n) or get(guild.roles, name=n)`: a recorded role wins. Otherwise the first guild role of that name is used, if any. |
| Apply.WithOverwrites | utils/template_manager.py:262-263 | Sending all overwrites merges them into exactly the target category. |
| Apply.RolesWalkStops | utils/template_manager.py:214-241 | An escaped error ends the role walk. Later roles change nothing. |
| Apply.ChannelsWalkStops | utils/template_manager.py:274-330 | A failure inside a category abandons the rest of its channels. |
| Apply.CategoriesWalkStops | utils/template_manager.py:244-330 | An escaped error ends the category walk. |
| ApplyProperties.CreateRoleCounts | utils/template_manager.py:230-237 | Creating a role adds one role of its name and leaves the count of every other name unchanged. |
| ApplyProperties.RoleStepEffect | utils/template_manager.py:216-241 | One role step either leaves the count of a name alone or creates the first role of that name. It changes only roles. |
| ApplyProperties.RolesWalkReuses | utils/template_manager.py:214-241 | A role name that already exists is never created again. Any other name is created at most once. Categories and channels are untouched, and no role is removed. |
| ApplyProperties.RolesWalkAborts | utils/template_manager.py:214-241 | The role walk stops exactly when some role has no name. A refused creation is skipped. |
| ApplyProperties.RoleStepObjs | utils/template_manager.py:217-238 | One step keeps every `role_objects` entry a guild role of that name, and records at most its own name. |
| ApplyProperties.RolesWalkObjs | utils/template_manager.py:214-241 | Every `role_objects` entry is a guild role of that name, whether it was reused or created, and comes from a walked role. |
| ApplyProperties.RoleStepCreates | utils/template_manager.py:216-238 | A named role that is not in the guild and that the remote accepts is created once, with the next id, its colour, flags and granted permissions, and is recorded in `role_objects`. |
| ApplyProperties.RoleStepKeeps | utils/template_manager.py:216-241 | A role step keeps every existing role and every recorded `role_objects` key. |
| ApplyProperties.RolesWalkProvides | utils/template_manager.py:214-241 | After a walk that completes, every named role the remote accepts (its colour parses, is at most 0xFFFFFF, and its name is not refused) is `Provided`: its name is in `role_objects` and the guild has a role of that name. |
| ApplyProperties.RoleStepProvides | utils/template_manager.py:216-238 | After its own step a named role the remote accepts is `Provided`, whether it was reused or created. |
| ApplyProperties.ChannelStepEffect | utils/template_manager.py:274-326 | A channel step creates nothing, or appends one channel that the flags allow and whose name is new to the category. |
| ApplyProperties.ChannelStepCreates | utils/template_manager.py:274-326 | A named, new, known-type, unfiltered channel that the remote accepts is created with its computed overwrites. |
| ApplyProperties.ChannelsWalkEffect | utils/template_manager.py:274-327 | The channel walk only appends channels the flags allow. It never duplicates a name the category already has, and creates any other name at most once. Roles and categories are kept. |
| ApplyProperties.CategoriesWalkKeepsRoles | utils/template_manager.py:244-330 | The category walk never changes the roles. |
| ApplyProperties.CategoriesWalkAborts | utils/template_manager.py:244-330 | The category walk stops exactly when some category has no name. |
| ApplyProperties.CategoryStepNames | utils/template_manager.py:244-330 | One category step either leaves the count of a category name alone or creates the first category of that name. |
| ApplyProperties.CategoriesWalkReuses | utils/template_manager.py:244-330 | A category name that already exists is never created again. Any other name is created at most once. |
| ApplyProperties.WalkWithoutCategories | utils/template_manager.py:244 | With `include_categories` off, no category or channel is created or changed. |
| ApplyProperties.WalkWithoutRoles | utils/template_manager.py:214 | With `include_roles` off, the roles are left as they are. |
| ApplyProperties.MergedUntouched | utils/template_manager.py:290-298 | A role with no channel entry keeps its starting overwrite. |
| ApplyProperties.ChannelOverwritesPerRole | utils/template_manager.py:289-298 | The channel's overwrites are the category's plus one for each named role. Each is that role's starting overwrite with its entries applied in order. |
| ApplyProperties.MergedKeepsUnmentioned | utils/template_manager.py:294-297 | A permission key that no entry for the role mentions keeps the category's value. |
| ApplyProperties.MergedLastWins | utils/template_manager.py:294-298 | A permission key takes the value of the last entry for the role that mentions it. |
| ApplyProperties.ChannelOverwritesShared | utils/template_manager.py:289-298 | Because of the shallow copy, the category's overwrite objects end up equal to the channel's for every role the category has. No new role is added to them. |
| Templates.ApplyRoles | utils/template_manager.py:213-241 | The role loop ends in exactly the guild, `role_objects` and abort state of `RolesWalk`. |
| Templates.TweakOverwrites | utils/template_manager.py:289-298 | The channel's permission loop computes exactly `ChannelOverwrites`, including the mutation of shared objects. |
| Templates.TweakStops | utils/template_manager.py:290-298 | A permission entry that raised ends the channel's overwrite computation. |
| Templates.ApplyChannel | utils/template_manager.py:274-326 | One channel iteration gives exactly `ChannelStep`. |
| Templates.ApplyChannels | utils/template_manager.py:274-327 | The channel loop ends in the guild state and abandonment of `ChannelsWalk`. |
| Templates.WithOverwritesPut | utils/template_manager.py:262-263 | Sending one more overwrite extends the merged overwrites by that role. |
| Templates.SetPermissions | utils/template_manager.py:262-263 | The `set_permissions` loop gives the guild of `SetPermissionsF`. A refusal leaves the guild unchanged. |
| Templates.ApplyCategory | utils/template_manager.py:246-330 | One category iteration, with its `except`, gives exactly `CategoryStep`. |
| Templates.ApplyCategories | utils/template_manager.py:243-330 | The category loop ends in the state of `CategoriesWalk`. |
| Templates.ByCategoryStep | utils/template_manager.py:84-89 | One grouping step adds its category and lists its name there with its description. Everything else is unchanged. |
| Templates.GroupingListsEveryTemplate | utils/template_manager.py:74-91 | Every stored template is listed under its category with its description. |
| Templates.ByCategoryGroupsSound | utils/template_manager.py:74-91 | Every group is the category of some template. |
| Templates.ByCategoryMembersSound | utils/template_manager.py:74-91 | Every listed name is a template of that group's category. |
| Templates.DescriptionList | utils/template_manager.py:70-72 | The list has exactly the store's names, each with its description or "No description". |
| Templates.BackupFileNameInjective | utils/template_manager.py:488 | Two backups share a file name only for the same guild and the same timestamp. |
| Templates.TemplateManager.constructor | utils/template_manager.py:14-26 | The manager starts with the loaded templates and submissions, and no backup files. |
| Templates.TemplateManager.GetTemplate | utils/template_manager.py:93-95 | A stored name gives its template. An unknown name gives `{}`. |
| Templates.TemplateManager.GetTemplateNames | utils/template_manager.py:66-68 | The names are the store's keys, in store order. |
| Templates.TemplateManager.GetTemplatesByCategory | utils/template_manager.py:74-91 | The grouping loop gives exactly `ByCategory` of the store. |
| Templates.TemplateManager.BackupServer | utils/template_manager.py:359-498 | Returns the backup document of the guild. It is stored under `{guild.id}_{stamp}.json` only when the write succeeds. Templates and submissions are unchanged. |
| Templates.TemplateManager.SubmitTemplate | utils/template_manager.py:500-546 | Without a required field, nothing is stored and the answer is False. Otherwise the submission replaces any earlier one of the same name as pending, and the answer is whether the save succeeded. |
| Templates.TemplateManager.GeneratePreview | utils/template_manager.py:97-177 | Returns `PreviewOf` the stored template. A view is recorded exactly for a known template and a truthy user id. |
| Templates.TemplateManager.ApplyTemplate | utils/template_manager.py:179-357 | An unknown template raises and leaves the guild untouched. Otherwise the guild ends as `Walk` under the defaulted options, and an error escapes exactly when a role or category lacks a name. One usage event is recorded for a truthy user, and it reports success exactly when nothing escaped. |
| Analytics.UsageTracker.TrackTemplateUsage | utils/analytics_service.py:12-13 | Appends exactly one usage event with the given fields. |
| Analytics.UsageTracker.TrackTemplateView | utils/analytics_service.py:66 | Appends exactly one view event. |
| Previews.KeyPermissionsByTable | utils/template_manager.py:137-155 | With `administrator`, the key permissions are "Administrator" alone. Otherwise they are the labels of the notable flags set, in table order. |
| Previews.LabelsSound | utils/template_manager.py:141-155 | Every reported label belongs to a notable flag that the role sets. |
| Previews.ChannelTotalListed | utils/template_manager.py:124 | The channel count equals the number of channels the outline lists. |
| Previews.PreviewCountsMatchLists | utils/template_manager.py:117-175 | A preview's role, category and channel counts match what it lists. |
| Previews.RoleInfoList | utils/template_manager.py:130-158 | One role entry per template role, in order. |
| Previews.CategoryInfoList | utils/template_manager.py:160-175 | One outline entry per category, with its channels, in order. |
| Previews.BuildPreview | utils/template_manager.py:97-177 | The loops produce exactly `PreviewOf`. An unknown template gives the not-found error. |
| Backups.AllBits | utils/template_manager.py:390-392 | Every permission flag is written, True exactly when the role has it. |
| Backups.RolesBackupIsReversedKept | utils/template_manager.py:376-394 | The role section is the kept roles (not default, not managed), highest first. |
| Backups.RoleDocRoundTrip | utils/template_manager.py:382-392 | A written role's colour parses back to its colour, and its granted flags are its own known flags. |
| Backups.RoleDocColorFormat | utils/template_manager.py:384 | A 24-bit colour is written as `0x` and exactly six lower-case hex digits. |
| Backups.EmitSound | utils/template_manager.py:404-420 | Every written overwrite belongs to a kept role of that name whose overwrite differs from the base and is not empty. The entry is exactly its explicit entries. |
| Backups.EmitComplete | utils/template_manager.py:434-450 | Every kept role whose overwrite differs from the base and has explicit entries is written. |
| Backups.EmitStep | utils/template_manager.py:405-420 | One more overwritten role changes only its own entry. |
| Backups.TextChannelsIn | utils/template_manager.py:423 | Exactly the category's text channels are taken: a channel is in the result if and only if it is a text channel of that category. |
| Backups.VoiceChannelsIn | utils/template_manager.py:455 | Exactly the category's voice channels are taken: a channel is in the result if and only if it is a voice channel of that category. |
| Backups.CategoryChannelsOrdered | utils/template_manager.py:423-455 | The text and voice channel lists keep the guild's channel order: the lists of two joined channel runs are the joined lists, and one channel yields itself exactly when it is of the right kind and category. |
| Backups.ChannelDocRecreates | utils/template_manager.py:423-483 | A written text or voice channel is recreated with its own kind and settings. |
| Backups.BackupRoles | utils/template_manager.py:377-394 | The downward role loop gives exactly `RolesBackup`. |
| Backups.BackupOverwrites | utils/template_manager.py:405-420 | The overwrite loop gives exactly `Emit`. |
| Backups.BackupChannels | utils/template_manager.py:423-483 | One channel document per channel, in order. |
| Backups.BackupCategories | utils/template_manager.py:397-485 | One category document per category, in order. |
| Backups.SerializeGuild | utils/template_manager.py:368-485 | The backup document is exactly `BackupOf` the guild. |
| Helpers.Lookup | utils/discord_helpers.py:162-166 | A guild role of that name wins. Otherwise `"@everyone"` means the default role, and any other name means nothing. |
| Helpers.BuildPermissionOverwritesKeys | utils/discord_helpers.py:146-171 | The build fails exactly when a resolved entry names an unknown permission. The keys are exactly the roles the names stand for. |
| Helpers.NamedRoleOverwrite | utils/discord_helpers.py:162-169 | A named guild role gets exactly its entry's permissions unless a later entry names it too. |
| Helpers.EveryoneFallback | utils/discord_helpers.py:164-169 | `"@everyone"` with no role of that name gives the default role its entry's permissions. |
| Helpers.HelperColor | utils/discord_helpers.py:20-21 | A number is used as it is. A string is accepted exactly when it parses as hex. |
| Helpers.DefaultColorIsBlack | utils/discord_helpers.py:20 | A role without a colour is created black. |
| Helpers.RoleRequestOf | utils/discord_helpers.py:19-35 | The request exists exactly when the colour parses. It uses the name (default "New Role"), the granted flags, and hoist and mentionable (default False). |
| Helpers.HelperColorMatchesApply | utils/discord_helpers.py:20-21 | The helper and template application read a text or missing colour alike. Only the helper accepts a number. |
| Helpers.BackupRoleRecreated | utils/discord_helpers.py:7-35 | A backed-up role is requested again with its own name, colour, known flags, hoist and mentionable settings. |
| Helpers.CreateRole | utils/discord_helpers.py:7-39 | One creation call with `RoleRequestOf`. An unparsable colour or a refusal gives None and changes nothing. |
| Helpers.CreateCategory | utils/discord_helpers.py:41-69 | One creation call, where missing overwrites become `{}`. A refusal gives None and changes nothing. |
| Helpers.TextKindOf | utils/discord_helpers.py:71-108 | A text channel with slowmode 0 and nsfw False by default. |
| Helpers.VoiceKindOf | utils/discord_helpers.py:110-144 | A voice channel with bitrate 64000 and user limit 0 by default. |
| Helpers.CreateTextChannel | utils/discord_helpers.py:71-108 | One creation call for a text channel. A refusal gives None and changes nothing. |
| Helpers.CreateVoiceChannel | utils/discord_helpers.py:110-144 | One creation call for a voice channel. A refusal gives None and changes nothing. |
| Helpers.BackupChannelRecreated | utils/discord_helpers.py:71-144 | A backed-up voice or text channel is asked for again with its own settings. |
| Bot.Cooldown | bot.py:137-155 | 30 s exactly for the template commands, 60 s exactly for `backup`, 120 s exactly for `ai-template`, and 3 s otherwise. |
| Bot.UsageKeyInjective | bot.py:158 | Distinct (user, command) pairs never share a usage entry. |
| Bot.RateLimit | bot.py:158-167 | A call is refused exactly when the key was used less than a cooldown ago. It then waits the rest of the cooldown; otherwise it waits 0. |
| Bot.WaitBounded | bot.py:160-163 | A refused call waits more than 0 and at most the cooldown. |
| Bot.CooldownWindow | bot.py:158-167 | After an allowed call, the same key is refused for exactly the cooldown, and allowed from then on. |
| Bot.RateLimitIndependent | bot.py:158-167 | A call never changes the answer for another user or command. |
| Bot.CommandName | bot.py:1011-1013 | A trailing `_command` is removed; any other name is kept. |
| Bot.CommandNameStrips | bot.py:1011-1013 | The command name of `<c>_command` is `c`. |
| Bot.BotStatus.constructor | bot.py:28-36 | Starts with no usages, no rate-limited commands and no active operations. |
| Bot.BotStatus.CheckRateLimit | bot.py:132-167 | Answers `RateLimit` and records the time only for an allowed call. |
| Bot.BotStatus.Invoke | bot.py:1009-1102 | A refused call marks the command rate limited. Otherwise the mark is cleared, unless a 429 sets it again. Active operations return to their old count. |
| Bot.ChannelCountByKind | bot.py:584-589 | The channel count is the number of text channels plus voice channels, each only if included. A missing type counts as text. |
| Bot.CustomizeCountsDiverge | bot.py:578-589 | With `include_categories` off, application leaves the channels as they are, yet the confirmation still counts the included channels. |
| Bot.CustomizeOvercountExample | bot.py:578-589 | A concrete template where one channel is announced and none is created. |
| Bot.CustomizeCounts | bot.py:578-589 | The nested count loops give exactly `CustomizeCountsOf`. |

## Left out

- I/O and time are not modelled directly:
  - Reading and writing the template and submission files is left out.
    The write's success is a boolean parameter (`writeOk`, `saveOk`).
  - `discord.utils.utcnow()` and `time.time()` are string and integer parameters.
  - Times are whole seconds. `int(current_time - last_use)` is then the elapsed time itself.
- Logging and the asynchronous execution of remote calls are left out. The
  remote guild runs each call to completion, in order.
- The usage tracker's database work (sessions, commits, rollbacks) is not
  modelled. The tracker is the list of events it is asked to record.
- Member (user) overwrites are not modelled. Overwrites are keyed by role
  only. The backup skips every target that is not a role.
- Role and channel positions beyond list order are not modelled. The remote's
  placement of a new role is abstracted to "some position". The properties
  state the roles as a multiset plus counts by name.
- Helpers.CreateCategory: the `position=0` argument is dropped. The remote
  places the new category near the top of the list, while the model appends
  it through `Guilds.CreateCategoryF`.
- The order of a guild object's overwrite dictionary is taken to be the role
  order when the backup writes overwrites.
- JSON `null` values, and document values of unexpected types other than a
  numeric colour, are not modelled.
- Permission aliases of the chat library are not modelled. `hasattr` accepts
  only the canonical flag names listed in `Permissions.PermissionNames`.
- Text.ParseHex: leading or trailing whitespace, a sign, and `_` digit
  separators, which Python's `int(s, 16)` also accepts, are not modelled. Its
  own contract states only that a parsed string is non-empty. The round trip
  is what the model relies on (`Text.ColorRoundTrip`).
- The forum branch of `Backups.ChannelDocOf` exists only for totality.
  `category.text_channels` and `category.voice_channels` never yield a forum
  channel.
- `create_ai_template` is left out. It is a placeholder that always returns
  the same error dictionary.
- These parts of `bot.py` are left out:
  - the slash-command bodies;
  - embeds, interaction responses and views;
  - event handlers and `start_bot`.
  Only the bookkeeping the command wrapper does, the cooldown check and the
  `/customize` counts are modelled.
- Bot.BotStatus.Invoke: the wrapper's `active_operations += 1` and `-= 1`
  (in `finally`) are collapsed. The contract states only that the count
  returns to its old value, not the intermediate increment seen while the
  command runs.
- Where the documented behaviour and the code disagree, the model follows the
  code:
  - `generate_preview` does not truncate the role or channel lists.
  - The backup writes every permission flag of a role, True or False, not
    only the granted ones.
  - The `/customize` confirmation counts channels even when
    `include_categories` is off, while application then creates none
    (`Bot.CustomizeCountsDiverge`, `Bot.CustomizeOvercountExample`).
  - The `create_role` helper accepts a numeric colour, which `apply_template`
    rejects (`Helpers.HelperColorMatchesApply`).
  - A channel's `setattr` on an overwrite copied from its category changes
    the category's own overwrite object. Later channels of the same category
    then start from the changed object (`ApplyProperties.ChannelOverwritesShared`).
- Templates.SetPermissions: refusals by the remote are keyed by category name,
  so the modelled `set_permissions` loop is all-or-nothing. In the code a
  refusal of one role's overwrite leaves the overwrites set before it in
  place. The partial update is not modelled because the overwrites are held
  as a map without an order of application.
- The whole round trip "back up the guild that applying a template to an
  empty guild produces, and get the template back" is not stated as one
  lemma. It does not hold literally: the backup writes every permission flag,
  the colour is rewritten in normalised hex, the shared-overwrite mutation
  changes category overwrites, and role placement is abstracted. It is stated
  piecewise instead: `Text.ColorRoundTrip`, `ApplyProperties.RoleStepCreates`,
  `ApplyProperties.RolesWalkProvides`, `Backups.RoleDocRoundTrip` and
  `Backups.ChannelDocRecreates`.
- A template's keys other than the seven the code reads are not kept. The
  flag `otherKeys` of `Documents.TemplateDoc` only records that such keys
  exist, so that a template with only such keys is not taken as empty.
