# discordia, modelled in Dafny

discordia keeps a Discord server ("guild") and a local store in step. Its
entities are categories, channels, users and messages. Each one has a
Discord snowflake id, and each one is validated when it is built. The
repository holds three generations of this machinery side by side, and
this model keeps them apart, one Dafny module per source file:

- **first generation** (`models/`, `persistence/`, `managers/`, `jsonl.py`)
  - pydantic entity models with their field rules;
  - a SQLite writer and an in-memory backend;
  - a JSONL append log;
  - the category, channel and message managers: discovery, daily log
    channels (named after the ISO date), message splitting and context
    history.
- **second generation** (`types.py`, `exceptions.py`, `state.py`,
  `registry.py`, `discovery.py`, `context.py`, `handlers.py`, `bot.py`)
  - the validated value types and the exception hierarchy;
  - an insertion-ordered in-memory store and the entity registry;
  - discovery of a guild's categories and channels;
  - the message context and the logging and echo handlers;
  - the bot's message path from an incoming event to a recorded reply.
- **third generation** (`state/`, `engine/`, `templates/`,
  `handlers/router.py`, and the pattern examples)
  - frozen state models, the memory store and its registry;
  - server, category and channel templates;
  - channel patterns: weekday, daily log and prefixed;
  - the resolver that expands patterns for a given day;
  - the reconciler, which creates what a template names and the guild
    lacks;
  - the discovery engine;
  - the handler router.

**How the model is built:**

- Python dicts keep insertion order. They are modelled as a sequence of
  keys plus a map, and re-saving an existing key keeps its position.
- The Discord guild is a class whose create calls may fail, and which
  logs every call it receives in a ghost field. This is how the
  reconciler's "no second call" properties are stated.
- The current day, the current time and what Discord returns are
  parameters.
- Dates are day ordinals (`date.toordinal`). `isoformat` and
  `isocalendar` are passed in as a `Calendar.Clock` value whose laws are
  stated as a ghost predicate `Calendar.Lawful`:
  - `isoformat` gives `YYYY-MM-DD` and is undone by `fromisoformat`;
  - `isocalendar` is undone, and its weekday follows the ordinal.

Where the written requirements and the code disagree, the model follows
the code, with one exception: the two defects listed under "## Findings"
are modelled as written beside a corrected definition, and the rest of the
model uses the corrected one (see `ModelsChannel.New` under "## Left out").
Otherwise:

- **Discovery stops early.** Discovery in `discovery.py` and
  `engine/discovery.py` stops at the first item that fails to convert or
  save. Items saved before it stay saved, and later items are not
  visited. The model does the same, so it does not skip and carry on.
- **Channel name check.** `types.validate_channel_name` accepts upper-case
  letters and spaces, as well as lower-case letters, digits, `-` and `_`.
  It does not keep to Discord's lower-case channel rule.
  `Types.MixedCaseNamesAccepted` states this.

## Model

| member | source | states |
|---|---|---|
| History.SortBy | src/discordia/state/memory.py:74 | `sorted` by a (timestamp, id) key: the result is sorted, has the same length, and is a permutation of the input |
| History.SortedUnique | src/discordia/state/memory.py:74 | when the keys are distinct, there is only one sorted arrangement of the messages |
| History.Recent | src/discordia/state/memory.py:74-75 | the sorted list cut to its last `limit` entries for limit > 0 and kept whole otherwise; every message left out sorts no later than any kept one |
| StateMemory.MemoryState.constructor | src/discordia/state/memory.py:16-23 | a new store has four empty id-keyed maps and satisfies the store invariant |
| StateMemory.MemoryState.SaveCategory | src/discordia/state/memory.py:25-29 | the category is stored under its id, replacing any earlier value but keeping its insertion position; the other three maps are unchanged; the store invariant is kept |
| StateMemory.MemoryState.SaveChannel | src/discordia/state/memory.py:31-37 | fails exactly when the channel names a category that is not stored, with the StateError text of the source, and then writes nothing; otherwise upserts the channel; never touches the other maps |
| StateMemory.MemoryState.SaveUser | src/discordia/state/memory.py:39-43 | upserts the user under its id; nothing else changes |
| StateMemory.MemoryState.SaveMessage | src/discordia/state/memory.py:45-53 | fails exactly when the author or the channel is unknown; an unknown author is reported first, even when the channel is unknown too; a failure writes nothing; a success upserts the message |
| StateMemory.MemoryState.GetCategory | src/discordia/state/memory.py:55-58 | returns the stored category exactly when the id is a key, nothing otherwise |
| StateMemory.MemoryState.GetChannel | src/discordia/state/memory.py:60-63 | returns the stored channel exactly when the id is a key |
| StateMemory.MemoryState.GetUser | src/discordia/state/memory.py:65-68 | returns the stored user exactly when the id is a key |
| StateMemory.MemoryState.ChannelMessages | src/discordia/state/memory.py:72-73 | holds exactly the stored messages of the channel |
| StateMemory.MemoryState.GetMessages | src/discordia/state/memory.py:70-75 | only stored messages of the channel, ascending by (timestamp, id); for limit > 0, min(limit, n) of them, and every message left out sorts no later than any kept one; for limit <= 0, all of them |
| StateMemory.MemoryState.GetMessagesUnique | src/discordia/state/memory.py:73-75 | the whole-history answer is the one sorted arrangement of the channel's messages |
| StateMemory.ResaveUser | src/discordia/state/memory.py:39-43 | saving a second payload under the same id makes the lookup return the second payload and keeps the key set |
| State.IsCategorized | src/discordia/state.py:75-78 | true exactly when the channel has a category id |
| State.IsEdited | src/discordia/state.py:113-116 | true exactly when the message has an edit time |
| State.NewCategory | src/discordia/state.py:58-63 | accepted exactly for snowflake ids, a name of 1..100 characters and a position >= 0; the record holds the given fields; otherwise a ValueError |
| State.NewChannel | src/discordia/state.py:66-73 | accepted exactly for snowflake ids, a valid channel name, an absent or snowflake category, a position >= 0 and a topic of at most 1024 characters; otherwise a ValueError |
| State.NewUser | src/discordia/state.py:81-86 | accepted exactly for a snowflake id and a 2..32 character username; discriminator "0" and bot false by default |
| State.NewMessage | src/discordia/state.py:89-96 | accepted exactly for snowflake ids and content of at most 2000 characters; no edit time by default |
| State.MemoryState.constructor | src/discordia/state.py:147-152 | four empty maps; the store invariant holds |
| State.MemoryState.SaveCategory | src/discordia/state.py:154-156 | upserts the category; the other maps are unchanged |
| State.MemoryState.SaveChannel | src/discordia/state.py:158-162 | fails with "Category N not found" exactly when the channel is categorized under an unknown category, and then writes nothing; otherwise upserts the channel |
| State.MemoryState.SaveUser | src/discordia/state.py:164-166 | upserts the user; the other maps are unchanged |
| State.MemoryState.SaveMessage | src/discordia/state.py:168-174 | fails on an unknown author ("User N not found"), else on an unknown channel ("Channel N not found"), writing nothing; otherwise upserts the message |
| State.MemoryState.GetCategory | src/discordia/state.py:176-178 | the stored category, or nothing exactly when the id is not a key |
| State.MemoryState.GetChannel | src/discordia/state.py:180-182 | the stored channel, or nothing exactly when the id is not a key |
| State.MemoryState.GetUser | src/discordia/state.py:184-186 | the stored user, or nothing exactly when the id is not a key |
| State.MemoryState.GetMessage | src/discordia/state.py:188-190 | the stored message, or nothing exactly when the id is not a key |
| State.MemoryState.ChannelMessages | src/discordia/state.py:193-194 | exactly the stored messages of the channel |
| State.MemoryState.GetMessages | src/discordia/state.py:192-197 | the channel's messages ascending by (timestamp, id); the latest min(limit, n) for limit > 0, all of them otherwise |
| State.MemoryState.CategorizedChannelsResolve | src/discordia/state.py:158-162 | the store invariant makes every stored categorized channel's category resolvable |
| State.SaveMessageOrder | src/discordia/state.py:168-174 | the author check comes first, then the channel check, and the save succeeds once both exist |
| PersistenceDatabase.SelectRecent | src/discordia/persistence/database.py:150-157 | empty for limit <= 0; otherwise the min(limit, n) latest messages, ascending by (timestamp, id), drawn from the input |
| PersistenceDatabase.DatabaseWriter.constructor | src/discordia/persistence/database.py:38-42 | not yet initialised; four empty maps |
| PersistenceDatabase.DatabaseWriter.Initialize | src/discordia/persistence/database.py:44-51 | the writer is initialised afterwards, whatever it was before |
| PersistenceDatabase.DatabaseWriter.EnsureInitialized | src/discordia/persistence/database.py:146-148 | the writer is initialised afterwards |
| PersistenceDatabase.DatabaseWriter.SaveCategory | src/discordia/persistence/database.py:58-63 | initialises, then upserts the category |
| PersistenceDatabase.DatabaseWriter.SaveChannel | src/discordia/persistence/database.py:65-76 | fails with "Failed to save channel N: missing category M" exactly when the category is set and unknown, writing nothing; otherwise upserts |
| PersistenceDatabase.DatabaseWriter.SaveUser | src/discordia/persistence/database.py:78-83 | initialises, then upserts the user |
| PersistenceDatabase.DatabaseWriter.SaveMessage | src/discordia/persistence/database.py:85-98 | fails with the missing-user text first, else the missing-channel text, writing nothing; otherwise upserts |
| PersistenceDatabase.DatabaseWriter.GetCategory | src/discordia/persistence/database.py:100-105 | initialises; the stored category or nothing |
| PersistenceDatabase.DatabaseWriter.GetChannel | src/discordia/persistence/database.py:117-122 | initialises; the stored channel or nothing |
| PersistenceDatabase.DatabaseWriter.GetCategoryByName | src/discordia/persistence/database.py:107-115 | the first category in insertion order whose name and server both match, or nothing |
| PersistenceDatabase.DatabaseWriter.GetChannelByName | src/discordia/persistence/database.py:124-132 | the first channel in insertion order whose name and server both match, or nothing |
| PersistenceDatabase.DatabaseWriter.GetMessages | src/discordia/persistence/database.py:134-144 | the recent-message selection over exactly that channel's stored messages |
| PersistenceMemory.MemoryBackend.constructor | src/discordia/persistence/memory.py:15-16 | a new backend holds no entries |
| PersistenceMemory.MemoryBackend.Write | src/discordia/persistence/memory.py:18-23 | appends exactly one {type, data} entry at the end |
| PersistenceMemory.MemoryBackend.ReadAll | src/discordia/persistence/memory.py:25-27 | the entries in write order |
| PersistenceMemory.ReadAllIsSnapshot | src/discordia/persistence/memory.py:25-27 | a list read before a write is not changed by the write |
| StateRegistry.EntityRegistry.constructor | src/discordia/state/registry.py:20-21 | the registry reads the given store |
| StateRegistry.EntityRegistry.GetCategoryByName | src/discordia/state/registry.py:23-33 | the first category in iteration order matching name and server; CategoryNotFoundError with the source's text exactly when none matches; always an error for a store that is not a MemoryState |
| StateRegistry.EntityRegistry.GetChannelByName | src/discordia/state/registry.py:35-45 | the same first-match rule over channels; ChannelNotFoundError on a miss |
| StateRegistry.EntityRegistry.GetChannelsInCategory | src/discordia/state/registry.py:47-54 | exactly the stored channels of the category, in iteration order; empty for another kind of store; never an error |
| StateRegistry.ListingAfterNewChannel | src/discordia/state/registry.py:51-53 | after a new channel is stored, a category's listing is the old listing, followed by the new channel when it belongs to that category |
| Registry.EntityRegistry.constructor | src/discordia/registry.py:19-20 | the registry reads the given store |
| Registry.EntityRegistry.GetCategoryByName | src/discordia/registry.py:22-30 | the first matching category in iteration order; EntityNotFoundError "Category 'name' not found" exactly when none matches |
| Registry.EntityRegistry.GetChannelByName | src/discordia/registry.py:32-40 | the first matching channel; EntityNotFoundError on a miss |
| Registry.EntityRegistry.GetChannelsInCategory | src/discordia/registry.py:42-48 | exactly the channels with that category id, in order; empty for another kind of store |
| StateModels.NewCategory | src/discordia/state/models.py:17-23 | accepted exactly for snowflake ids and a 1..100 character name (the readings of the undefined `DiscordSnowflake` and `CategoryName`, see "## Left out"); the record holds the given fields; otherwise a ValueError |
| StateModels.NewChannel | src/discordia/state/models.py:27-43 | accepted exactly for snowflake ids (the reading of `DiscordSnowflake`), a valid channel name, a null or positive snowflake category and a topic of at most 1024 characters |
| StateModels.NewUser | src/discordia/state/models.py:46-52 | accepted exactly for a snowflake id and a 2..32 character username |
| StateModels.NewMessage | src/discordia/state/models.py:56-64 | accepted exactly for snowflake ids and content of at most 2000 characters |
| StateModels.Defaults | src/discordia/state/models.py:23-64 | position 0; no category or topic; discriminator "0" and bot false; no edit time |
| Types.ValidateDiscordId | src/discordia/types.py:11-15 | accepts exactly 1 <= v <= 2^63-1 and returns v unchanged; otherwise a ValueError "Invalid Discord ID: v" |
| Types.FirstBadChar | src/discordia/types.py:30-32 | finds the first character outside the allowed set, and none exactly when every character is allowed |
| Types.ValidateChannelName | src/discordia/types.py:18-34 | accepts exactly a 1..100 character name of ASCII letters, digits, '-', '_' and spaces, and returns it unchanged; the empty and the over-long name fail with the source's texts, in that order |
| Types.DigitsAndDashes | src/discordia/types.py:18-34 | a 1..100 character name of digits and dashes is a valid channel name (the form of the generated date names) |
| Types.MixedCaseNamesAccepted | src/discordia/types.py:29-32 | upper case and spaces pass the channel-name validator |
| Types.ValidateUsername | src/discordia/types.py:37-41 | accepts exactly lengths 2..32 and returns the input |
| Types.ValidateMessageContent | src/discordia/types.py:44-48 | accepts exactly lengths up to 2000 and returns the input |
| Exceptions.IsATransitive | src/discordia/exceptions.py:21-38 | the subclass relation is transitive |
| Exceptions.IsAAntisymmetric | src/discordia/exceptions.py:21-38 | the subclass relation is antisymmetric |
| Exceptions.IsADepth | src/discordia/exceptions.py:21-38 | a subclass lies strictly deeper in the hierarchy than a proper ancestor |
| Exceptions.PackageErrorsAreDiscordia | src/discordia/exceptions.py:21-38 | every error kind of the package is a DiscordiaError, and the built-in ValueError, OverflowError and remote errors are not |
| Exceptions.NotFoundIsStateError | src/discordia/exceptions.py:33-34 | the not-found errors are StateErrors |
| Exceptions.Str | src/discordia/exceptions.py:15-18 | the text starts with the message, and is the message alone exactly when there is no cause |
| Exceptions.CauseShown | src/discordia/exceptions.py:16-17 | with a cause, the text contains the cause's own text |
| TemplatesChannel.TypeTag | src/discordia/templates/channel.py:13-19 | every kind has one of the four tags |
| TemplatesChannel.TypeFromTag | src/discordia/templates/channel.py:13-19 | a tag maps back to the kind carrying it, and to nothing when no kind carries it |
| TemplatesChannel.Type | src/discordia/templates/channel.py:33-68 | each variant carries its own fixed kind, so the union is a closed four-way sum |
| TemplatesChannel.NewText | src/discordia/templates/channel.py:22-35 | accepted exactly for a valid name, a topic of at most 1024 characters and slowmode in 0..21600 |
| TemplatesChannel.NewVoice | src/discordia/templates/channel.py:38-43 | accepted exactly for a valid name and topic, bitrate in 8000..384000 and user limit in 0..99 |
| TemplatesChannel.NewForum | src/discordia/templates/channel.py:46-50 | accepted exactly for a valid name and topic and thread slowmode in 0..21600 |
| TemplatesChannel.NewAnnouncement | src/discordia/templates/channel.py:53-56 | accepted exactly for a valid name and topic |
| TemplatesChannel.Defaults | src/discordia/templates/channel.py:26-50 | no topic or position, slowmode 0, not nsfw, bitrate 64000, user limit 0 |
| TemplatesCategory.New | src/discordia/templates/category.py:11-16 | accepted exactly for a 1..100 character name (the reading of the undefined `CategoryName`); the position and the channels are kept as given, in order |
| TemplatesServer.Outputs | src/discordia/templates/server.py:22-23 | one generation result per pattern, in pattern order |
| TemplatesServer.Resolved | src/discordia/templates/server.py:19-29 | on success: no patterns left, the categories unchanged, the uncategorized channels followed by every pattern's output in order; otherwise the first pattern's error |
| TemplatesServer.ResolvePatterns | src/discordia/templates/server.py:19-29 | the loop computes the resolved template |
| TemplatesServer.ExpandAll | src/discordia/templates/server.py:21-23 | the loop concatenates every pattern's output, stopping at the first failure |
| TemplatesServer.ResolvedOk | src/discordia/templates/server.py:21-23 | resolution succeeds exactly when every pattern generates, and otherwise fails with the error of some pattern |
| TemplatesServer.ExpandedAppend | src/discordia/templates/server.py:21-23 | expanding two pattern lists in sequence is expanding their concatenation |
| TemplatesServer.ExpandedSingle | src/discordia/templates/server.py:21-23 | one pattern expands to its own output |
| TemplatesServer.ResolveWithoutPatterns | src/discordia/templates/server.py:21-28 | with no patterns, resolution returns the template unchanged |
| TemplatesServer.ResolveIdempotent | src/discordia/templates/server.py:19-29 | resolving a resolved template gives the same template |
| TemplatesPatterns.Generate | src/discordia/templates/patterns.py:10-19 | dispatches to the pattern's own generator and returns its result |
| TemplatesWeekdayPattern.New | src/discordia/templates/weekday_pattern.py:16-18 | accepted exactly for 0..4 weeks ahead and 0..8 weeks behind |
| TemplatesWeekdayPattern.DayNameShape | src/discordia/templates/weekday_pattern.py:34-38 | a day's name is a valid five-character channel name ending in '0' and the ISO weekday |
| TemplatesWeekdayPattern.DayNames | src/discordia/templates/weekday_pattern.py:33-38 | one name per day of the window, the i-th from the ISO calendar of start + i |
| TemplatesWeekdayPattern.Generated | src/discordia/templates/weekday_pattern.py:20-49 | succeeds exactly when the window stays in the date range and the topic is valid; otherwise a ValueError or an OverflowError |
| TemplatesWeekdayPattern.Generate | src/discordia/templates/weekday_pattern.py:20-49 | the day loop computes the specified window |
| TemplatesWeekdayPattern.WeekdaysCycle | src/discordia/templates/weekday_pattern.py:25-38 | 7 * (weeks behind + weeks ahead + 1) templates; the weekday part of the i-th name is i mod 7 + 1 |
| TemplatesWeekdayPattern.NamesCycle | src/discordia/templates/weekday_pattern.py:33-38 | from a Monday, consecutive days' names cycle through weekdays 1..7 |
| TemplatesWeekdayPattern.NamedByDay | src/discordia/templates/weekday_pattern.py:31-47 | one text template per consecutive day, named by that day, with the pattern's topic and no position |
| TemplatesWeekdayPattern.TodayIncluded | src/discordia/templates/weekday_pattern.py:25-29 | today is inside the window, at index 7 * weeks behind + weekday(today) |
| Calendar.Weekday | src/discordia/templates/weekday_pattern.py:25-26 | date.weekday() lies in 0..6 |
| Calendar.WeekdayShift | src/discordia/templates/weekday_pattern.py:25-29 | k days later the weekday has advanced by k mod 7 |
| Calendar.IsoformatInjective | examples/patterns/daily_log.py:29 | distinct days have distinct ISO calendar dates |
| Calendar.IsocalendarInjective | src/discordia/templates/weekday_pattern.py:34-36 | distinct days have distinct ISO week dates |
| Calendar.IsoWeekdayStep | src/discordia/templates/weekday_pattern.py:34-36 | the next day's ISO weekday is one more, modulo 7 (Monday = 1) |
| DateWindow.WindowTemplates | src/discordia/templates/weekday_pattern.py:31-47 | one text template per name, with the topic and no position; fails exactly on an invalid topic or a window reaching past the last date |
| DateWindow.GenerateDays | src/discordia/templates/weekday_pattern.py:31-47 | the day-by-day loop computes exactly the window's templates |
| DateWindow.WholeWeeks | src/discordia/templates/weekday_pattern.py:25-29 | the window runs from a Monday to a Sunday, holds today, and spans 7 * (weeks behind + weeks ahead + 1) days |
| DateWindow.TodayInWeeks | src/discordia/templates/weekday_pattern.py:25-29 | today sits 7 * weeks behind + weekday(today) days after the window's start |
| DateWindow.WeekdayInWindow | src/discordia/templates/weekday_pattern.py:31-36 | the i-th day after a Monday has weekday i mod 7 |
| PatternsDailyLog.New | examples/patterns/daily_log.py:14-16 | accepted exactly for 0..30 days ahead and 0..90 days behind |
| PatternsDailyLog.IsoDateIsChannelName | examples/patterns/daily_log.py:29 | a YYYY-MM-DD date is a valid channel name |
| PatternsDailyLog.NamesValid | examples/patterns/daily_log.py:26-34 | every generated date name is a valid channel name |
| PatternsDailyLog.DayNames | examples/patterns/daily_log.py:26-34 | one name per day, the i-th the ISO date of start + i |
| PatternsDailyLog.Generated | examples/patterns/daily_log.py:18-35 | succeeds exactly when the window stays in the date range and the topic is valid; then days behind + days ahead + 1 templates, the i-th named by the date today - days behind + i, with today's at index days behind |
| PatternsDailyLog.Generate | examples/patterns/daily_log.py:18-35 | the day loop computes the specified list |
| PatternsDailyLog.NamesDistinct | examples/patterns/daily_log.py:26-34 | the generated names are pairwise distinct |
| PatternsDailyLog.DistinctDates | examples/patterns/daily_log.py:29 | distinct days of a window have distinct names |
| PatternsDailyLog.TodayOnly | examples/patterns/daily_log.py:20-35 | with no days ahead or behind, the one template is today's |
| PatternsPrefixed.TopicFor | examples/patterns/prefixed.py:26 | no topic without a generator; with one, its answer for the suffix, or the error it raises |
| PatternsPrefixed.GeneratedFromOk | examples/patterns/prefixed.py:24-33 | from index i on, the loop succeeds exactly when every later turn succeeds |
| PatternsPrefixed.GeneratedFromAt | examples/patterns/prefixed.py:24-33 | a successful loop from index i on holds one template per remaining suffix; the one at place j - i is the template of the turn for suffix j |
| PatternsPrefixed.GeneratedFromErr | examples/patterns/prefixed.py:24-33 | a failing loop raises the error of the first turn that fails |
| PatternsPrefixed.GeneratedSpec | examples/patterns/prefixed.py:21-34 | `generate` succeeds exactly when every turn does, with one template per suffix in suffix order; otherwise it raises the first failing turn's error: the topic generator's own error, or the validation error of a bad name or a topic over 1024 characters |
| PatternsPrefixed.Generate | examples/patterns/prefixed.py:21-34 | the loop over the suffixes computes the specified list |
| PatternsPrefixed.Layout | examples/patterns/prefixed.py:24-33 | the i-th template is a text channel named prefix + separator + suffix i, at position i, with the generator's answer as topic, or none when no generator is set |
| PatternsPrefixed.NoSuffixes | examples/patterns/prefixed.py:21-34 | no suffixes, no templates |
| PatternsPrefixed.NamesDistinct | examples/patterns/prefixed.py:24-25 | distinct suffixes give distinct names |
| PatternsWeekday.New | examples/patterns/weekday.py:14-16 | accepted exactly for 0..4 weeks ahead and 0..8 weeks behind |
| PatternsWeekday.DayNameShape | examples/patterns/weekday.py:31-36 | a day's name is YYYY, '-', the two-digit ISO week, '-0' and the ISO weekday, and is a valid channel name |
| PatternsWeekday.NamePartsEqual | examples/patterns/weekday.py:36 | equal names have equal year, week and weekday parts |
| PatternsWeekday.NameEndsInWeekday | examples/patterns/weekday.py:34-36 | a name ends in '-0' and its ISO weekday |
| PatternsWeekday.DayNameInjective | examples/patterns/weekday.py:31-36 | distinct ISO week dates get distinct names |
| PatternsWeekday.DayNames | examples/patterns/weekday.py:29-36 | one name per day, from the ISO calendar of start + i |
| PatternsWeekday.Generated | examples/patterns/weekday.py:18-47 | succeeds exactly when the window stays in the date range and the topic is valid |
| PatternsWeekday.Generate | examples/patterns/weekday.py:18-47 | the day loop computes the specified list |
| PatternsWeekday.NamedByDay | examples/patterns/weekday.py:25-45 | one template per consecutive day from the window's Monday, named by that day |
| PatternsWeekday.WeekdaysCycle | examples/patterns/weekday.py:22-36 | 7 * (weeks behind + weeks ahead + 1) templates; the i-th name ends in '-0' and i mod 7 + 1 |
| PatternsWeekday.WeekdaysFromMonday | examples/patterns/weekday.py:22-36 | in a window that starts on a Monday, the ISO weekday of day d is (d - start) mod 7 + 1 |
| PatternsWeekday.NamesCycle | examples/patterns/weekday.py:29-36 | when the days' ISO weekdays count from a Monday, the i-th name of the window ends in '-0' and i mod 7 + 1 |
| PatternsWeekday.NamesDistinct | examples/patterns/weekday.py:29-45 | the generated names are pairwise distinct |
| PatternsWeekday.DistinctNames | examples/patterns/weekday.py:31-36 | distinct days of a window have distinct names |
| ModelsCategory.New | src/discordia/models/category.py:19-37 | accepted exactly for positive ids and a non-blank name of at most 100 characters |
| ModelsCategory.ToDiscordFormat | src/discordia/models/category.py:39-46 | the payload carries id, name, guild id and position, and the record can be read back from it |
| ModelsCategory.ToDiscordFormatInjective | src/discordia/models/category.py:39-46 | distinct categories give distinct payloads |
| ModelsChannel.ValidateNameAsWritten | src/discordia/models/channel.py:25-61 | the name validator as written: Python's `re.match` with `$` also accepts one trailing newline |
| ModelsChannel.ValidateName | src/discordia/models/channel.py:25-61 | accepts exactly 1..100 characters from lower-case letters, digits and '-', returning the name |
| ModelsChannel.TrailingNewlineAccepted | src/discordia/models/channel.py:25 | "general\n" passes the validator as written and fails the intended one |
| ModelsChannel.ValidatorsAgreeWithoutNewline | src/discordia/models/channel.py:54-61 | the two validators agree on every name that does not end in a newline |
| ModelsChannel.New | src/discordia/models/channel.py:27-61 | accepted exactly for positive ids, a valid name (the corrected rule, without a final newline) and a null or positive category |
| ModelsChannel.ToDiscordFormat | src/discordia/models/channel.py:63-71 | the payload carries id, name, guild id, parent id and position, and the record can be read back from it |
| ModelsMessage.New | src/discordia/models/message.py:22-49 | accepted exactly for positive ids and content of at most 2000 characters |
| ModelsMessage.ToDiscordFormat | src/discordia/models/message.py:51-67 | the payload carries every field, the edit time exactly when there is one, and the record can be read back from it |
| ModelsUser.New | src/discordia/models/user.py:17-42 | accepted exactly for a positive id, a non-blank username of at most 32 characters and a non-empty discriminator |
| ModelsUser.NewDefaults | src/discordia/models/user.py:19-20 | discriminator "0" and bot false by default |
| ModelsUser.ToDiscordFormat | src/discordia/models/user.py:44-55 | the payload carries id, username, discriminator and bot, and the record can be read back from it |
| Jsonl.JsonlWriter.constructor | src/discordia/persistence/jsonl.py:25-32 | the writer holds its path and no lines |
| Jsonl.JsonlWriter.Write | src/discordia/persistence/jsonl.py:34-54 | on success exactly one {type, data} line is appended; on failure nothing is written and the error is a JSONLError "Failed to write T to JSONL" |
| Jsonl.JsonlWriter.WriteCategory | src/discordia/persistence/jsonl.py:56-59 | writes the category under the type "category" |
| Jsonl.JsonlWriter.WriteChannel | src/discordia/persistence/jsonl.py:61-64 | writes the channel under the type "channel" |
| Jsonl.JsonlWriter.WriteUser | src/discordia/persistence/jsonl.py:71-74 | writes the user under the type "user" |
| Jsonl.JsonlWriter.WriteMessage | src/discordia/persistence/jsonl.py:66-69 | writes the message under the type "message" |
| Remote.Guild.constructor | src/discordia/engine/reconciler.py:27 | the guild holds the given channel list and no calls have been made |
| Remote.Guild.CreateCategory | src/discordia/engine/reconciler.py:52 | the call is logged; on success a category with a new id and the requested name is appended to the guild's list; on failure the list is unchanged |
| Remote.Guild.CreateTextChannel | src/discordia/engine/reconciler.py:74-76 | the call is logged; on success a text channel with a new id, the name, parent and topic is appended; on failure the list is unchanged |
| EngineDiscovery.TopicOrEmpty | src/discordia/engine/discovery.py:68 | the channel's topic, or "" when it has none |
| EngineDiscovery.DiscoveryEngine.constructor | src/discordia/engine/discovery.py:31-33 | the engine holds its store and server id |
| EngineDiscovery.DiscoveryEngine.DiscoverCategories | src/discordia/engine/discovery.py:35-53 | returns the specified records or a DiscordAPIError "Failed to discover categories" wrapping the first failure; on success every record is upserted; on failure exactly the records before the failing item are kept; the other maps are unchanged |
| EngineDiscovery.DiscoveryEngine.DiscoverChannels | src/discordia/engine/discovery.py:55-76 | the same over text channels, checked against the categories stored at the start; earlier writes stay after a failure |
| EngineDiscovery.CategoriesInOrder | src/discordia/engine/discovery.py:39-48 | the discovered categories are the records of the guild's category items, in guild order |
| EngineDiscovery.DiscoveredCategoriesSpec | src/discordia/engine/discovery.py:35-53 | discovery succeeds exactly when every category item makes a valid record; the failure is a ValueError |
| EngineDiscovery.ChannelsInOrder | src/discordia/engine/discovery.py:59-71 | the discovered channels are the records of the guild's text items, in guild order |
| EngineDiscovery.DiscoveredChannelsSpec | src/discordia/engine/discovery.py:55-76 | succeeds exactly when every text item makes a valid record whose parent is stored; every record has a topic ("" for none) and a known or no category |
| Discovery.TopicIfSet | src/discordia/discovery.py:74-77 | a topic exactly when the item has a non-empty one |
| Discovery.DiscoveryEngine.constructor | src/discordia/discovery.py:38-40 | the engine holds its store and server id |
| Discovery.DiscoveryEngine.DiscoverCategories | src/discordia/discovery.py:42-62 | returns the specified records or a DiscordAPIError "Category discovery failed"; on success every record is stored and can be looked up; on failure exactly the records before the failing item are kept |
| Discovery.DiscoveryEngine.DiscoverChannels | src/discordia/discovery.py:64-94 | the same over text channels, with "Channel discovery failed" |
| Discovery.CategoriesInOrder | src/discordia/discovery.py:47-56 | the discovered categories are the records of the category items, in order |
| Discovery.DiscoveredCategoriesSpec | src/discordia/discovery.py:42-62 | succeeds exactly when every category item makes a valid record |
| Discovery.ChannelsInOrder | src/discordia/discovery.py:69-88 | the discovered channels are the records of the text items, in order |
| Discovery.DiscoveredChannelsSpec | src/discordia/discovery.py:64-94 | succeeds exactly when every text item makes a valid record whose parent is stored; an empty topic is stored as none |
| EngineReconciler.TemplatePosition | src/discordia/engine/reconciler.py:59 | a template without a position is placed at 0 |
| EngineReconciler.Reconciler.constructor | src/discordia/engine/reconciler.py:22-25 | the reconciler holds its store, registry and server id |
| EngineReconciler.Reconciler.LookupChannel | src/discordia/engine/reconciler.py:70 | the registry finds a channel by name exactly when the store holds one with that name and server |
| EngineReconciler.Reconciler.LookupCategory | src/discordia/engine/reconciler.py:49 | the registry finds a category by name exactly when the store holds one |
| EngineReconciler.Reconciler.CreateChannel | src/discordia/engine/reconciler.py:73-87 | one create call for a text channel with the template's name, parent and topic; on success the new channel is stored under the id the guild gave it |
| EngineReconciler.Reconciler.ReconcileChannel | src/discordia/engine/reconciler.py:67-88 | a create call exactly when no channel of that name exists and the template is a text channel; otherwise nothing changes; a created channel can be found by name afterwards |
| EngineReconciler.Reconciler.CreateCategory | src/discordia/engine/reconciler.py:52-61 | one create call; on success the new category is stored with the template's position or 0 |
| EngineReconciler.Reconciler.ReconcileChannels | src/discordia/engine/reconciler.py:64-65 | every call made is for one of the templates, under the given parent; when every channel already exists, no calls and no changes |
| EngineReconciler.Reconciler.EnsureCategory | src/discordia/engine/reconciler.py:48-62 | a create call exactly when no category of that name exists; afterwards one exists |
| EngineReconciler.Reconciler.ReconcileCategory | src/discordia/engine/reconciler.py:46-65 | when the category and its channels already exist, no calls and no changes; after success they all exist |
| EngineReconciler.Reconciler.ReconcileCategories | src/discordia/engine/reconciler.py:33-35 | calls only for the given categories, pairwise distinct; when all exist, no calls |
| EngineReconciler.Reconciler.ReconcileResolved | src/discordia/engine/reconciler.py:33-39 | calls only for the template's entries and pairwise distinct; after success every category, its channels and every uncategorized text channel exist |
| EngineReconciler.Reconciler.Reconcile | src/discordia/engine/reconciler.py:27-44 | every failure is a ReconciliationError "Failed to reconcile template" carrying its cause; a pattern failure changes nothing; otherwise the resolved template is reconciled |
| EngineReconciler.ReconcileTwice | src/discordia/engine/reconciler.py:27-88 | when the first run succeeds, a second run succeeds and makes no create calls |
| ManagersCategory.CategoryManager.constructor | src/discordia/managers/category_manager.py:28-39 | the manager holds its database, JSONL writer and server id |
| ManagersCategory.CategoryManager.SaveCategory | src/discordia/managers/category_manager.py:75-102 | the category is upserted in the database and one JSONL write is attempted; a JSONL failure is swallowed and leaves the file as it was |
| ManagersCategory.CategoryManager.SaveCollected | src/discordia/managers/category_manager.py:65-66 | saving one more discovered category extends both sinks by exactly that category |
| ManagersCategory.CategoryManager.DiscoverCategories | src/discordia/managers/category_manager.py:41-73 | returns the specified records or a DiscordAPIError "Failed to discover categories"; every record is saved to both sinks in guild order; after a failure the records before the failing item stay saved |
| ManagersCategory.CategoryManager.GetCategoryByName | src/discordia/managers/category_manager.py:104-124 | the first category in insertion order with that name in this server; CategoryNotFoundError exactly when there is none |
| ManagersCategory.CategoryManager.GetCategory | src/discordia/managers/category_manager.py:126-146 | the stored category, or CategoryNotFoundError "Category N not found" exactly when the id is not stored |
| ManagersCategory.CategoriesInOrder | src/discordia/managers/category_manager.py:55-66 | the discovered categories are the records of the category items, in guild order |
| ManagersCategory.DiscoveredCategoriesSpec | src/discordia/managers/category_manager.py:41-73 | discovery succeeds exactly when every category item has a positive id and a non-blank name of at most 100 characters |
| ManagersChannel.ChannelManager.constructor | src/discordia/managers/channel_manager.py:32-43 | the manager holds its database, JSONL writer and server id |
| ManagersChannel.ChannelManager.SaveChannel | src/discordia/managers/channel_manager.py:81-107 | the channel is upserted when its category is known, and otherwise the database error is swallowed; one JSONL write is attempted either way |
| ManagersChannel.ChannelManager.SaveCollected | src/discordia/managers/channel_manager.py:71-72 | saving one more discovered channel extends both sinks by exactly that channel |
| ManagersChannel.ChannelManager.DiscoverChannels | src/discordia/managers/channel_manager.py:45-79 | returns the specified records or a DiscordAPIError "Failed to discover channels"; every storable record is saved in guild order; earlier writes stay after a failure |
| ManagersChannel.ChannelManager.GetChannel | src/discordia/managers/channel_manager.py:109-129 | the stored channel, or ChannelNotFoundError "Channel N not found" exactly when the id is not stored |
| ManagersChannel.ChannelManager.CreateChannel | src/discordia/managers/channel_manager.py:131-160 | one remote create call; on success the new channel (position 0) is returned and saved; a failure is a DiscordAPIError "Failed to create channel: name" with its cause and no write; the JSONL log gains an attempt for the saved channel (a line when its append succeeds) and nothing on failure |
| ManagersChannel.ChannelManager.EnsureDailyLogChannel | src/discordia/managers/channel_manager.py:172-197 | an existing channel named after today is returned with no remote call; otherwise exactly one create call under the log category; the result is named after today; the JSONL log changes only by the created channel's entry |
| ManagersChannel.EnsureDailyLogChannelTwice | src/discordia/managers/channel_manager.py:172-197 | with the log category stored: after a successful first call, a second call succeeds with the same name and makes no create call |
| ManagersChannel.EnsureDailyLogChannelUnstored | src/discordia/managers/channel_manager.py:88-197 | with the log category not stored and no channel named after today: the database refuses the new channel, the error is swallowed, and two calls make two create calls and store nothing |
| ManagersChannel.LogChannelTrailingNewline | src/discordia/managers/channel_manager.py:30 | a date followed by a newline passes the pattern as written and fails the intended rule |
| ManagersChannel.LogChannelReadingsAgree | src/discordia/managers/channel_manager.py:162-165 | the two readings agree on every name not ending in a newline |
| ManagersChannel.DailyNameIsLogChannel | src/discordia/managers/channel_manager.py:162-170 | the daily channel name is a log channel name |
| ManagersChannel.ChannelsInOrder | src/discordia/managers/channel_manager.py:59-72 | the discovered channels are the records of the text items, in guild order |
| ManagersChannel.DiscoveredChannelsSpec | src/discordia/managers/channel_manager.py:45-79 | discovery succeeds exactly when every text item makes a valid channel record |
| ManagersMessage.PositiveOrOne | src/discordia/managers/message_handler.py:62-64 | a positive id is kept and anything else becomes 1, so the result is always positive |
| ManagersMessage.UsernameAcceptable | src/discordia/managers/message_handler.py:66-68 | the normalised username has 1..32 characters and is not blank |
| ManagersMessage.UsernameStripped | src/discordia/managers/message_handler.py:66-68 | a present, non-blank name is stripped (and cut to 32); a missing or blank one becomes "unknown" |
| ManagersMessage.PrefixNotBlank | src/discordia/managers/message_handler.py:67-68 | cutting a name that starts with a non-space leaves it non-blank |
| ManagersMessage.UserOfNormalised | src/discordia/managers/message_handler.py:62-78 | the user built from the normalised fields is always valid, so the fallback user is never needed |
| ManagersMessage.ContentTruncated | src/discordia/managers/message_handler.py:106-108 | the content is a prefix of the input, the whole input when it fits, and exactly the limit's length otherwise |
| ManagersMessage.MessageOfBuilt | src/discordia/managers/message_handler.py:102-134 | with a limit of at most 2000 the message always builds: positive ids, truncated content, the event's or the current time, the edit time as given |
| ManagersMessage.MessageOfFails | src/discordia/managers/message_handler.py:127-134 | building fails, with a ValueError, exactly when the kept content exceeds 2000 characters |
| ManagersMessage.MessageHandler.constructor | src/discordia/managers/message_handler.py:25-50 | default context limit 20 and message limit 2000 |
| ManagersMessage.MessageHandler.SaveUser | src/discordia/managers/message_handler.py:52-90 | returns the normalised, valid user; it is upserted in the database and one JSONL write is attempted |
| ManagersMessage.MessageHandler.SaveMessage | src/discordia/managers/message_handler.py:92-146 | returns the built message; it is stored exactly when its author and channel are stored; one JSONL write is attempted; a build failure writes nothing |
| ManagersMessage.MessageHandler.GetContextMessages | src/discordia/managers/message_handler.py:148-157 | the recent-message selection for the channel at the context limit: empty for a limit <= 0, else min(limit, n) of that channel's stored messages |
| ManagersMessage.MessageHandler.SplitMessage | src/discordia/managers/message_handler.py:159-180 | the loop computes the specified chunking |
| ManagersMessage.PackRejoins | src/discordia/managers/message_handler.py:165-178 | with no empty lines, the packed chunks joined by newlines give back the lines joined by newlines |
| ManagersMessage.PackNonEmpty | src/discordia/managers/message_handler.py:171-172 | no chunk is empty |
| ManagersMessage.PackBounded | src/discordia/managers/message_handler.py:168-175 | when every line fits, every chunk fits |
| ManagersMessage.ChunksNonEmpty | src/discordia/managers/message_handler.py:165-180 | a text over the limit is split into non-empty chunks |
| ManagersMessage.ChunksBounded | src/discordia/managers/message_handler.py:159-180 | when every line fits the limit, every chunk does |
| ManagersMessage.ChunksRejoin | src/discordia/managers/message_handler.py:159-180 | with no empty lines, joining the chunks with newlines gives back the text |
| ManagersMessage.PackEmptyLines | src/discordia/managers/message_handler.py:168-178 | empty lines alone pack into no chunk: an empty line that would start a chunk is dropped |
| ManagersMessage.NewlinesOnlyDropped | src/discordia/managers/message_handler.py:159-180 | a text over the limit made only of line breaks splits into no chunk at all |
| ManagersMessage.OverlongLineKept | src/discordia/managers/message_handler.py:168-178 | a single line over the limit comes back whole, as one chunk |
| Context.IsCommand | src/discordia/context.py:44-47 | true exactly when the content starts with '!', '/' or '.' |
| Context.MentionsBot | src/discordia/context.py:82-85 | true exactly when "<@" occurs somewhere in the content |
| Context.IsReply | src/discordia/context.py:96-104 | true exactly when "<reply:" occurs in the content (the store check always answers no) |
| Context.GetHistory | src/discordia/context.py:121-124 | stored messages of the context's channel, ascending by (timestamp, id), the latest min(limit, n) for limit > 0 and all of them otherwise |
| Context.CommandShape | src/discordia/context.py:51-70 | a command always has a name; its words are the prefix and name, then the arguments; a non-command has no words or arguments |
| Context.CommandPieces | src/discordia/context.py:51-70 | prefix, name and arguments together hold exactly the content's non-whitespace characters, in order |
| Handlers.NewEchoConfig | src/discordia/handlers.py:78-81 | accepted exactly for a prefix of at least one character |
| Handlers.DefaultEchoConfig | src/discordia/handlers.py:78-81 | the default prefix "echo:" is accepted |
| Handlers.LoggingHandlerSpec | src/discordia/handlers.py:56-75 | the logging handler takes a message exactly when enabled, and never answers |
| Handlers.EchoHandlerSpec | src/discordia/handlers.py:84-94 | the echo handler takes a message exactly when it starts with the prefix, and answers the rest after the prefix, stripped |
| Handlers.EchoAnswerSlice | src/discordia/handlers.py:93-94 | the echo answer is a slice of the content after the prefix with only whitespace around it |
| HandlersRouter.HandlerRouter.constructor | src/discordia/handlers/router.py:17-18 | the router holds its handlers in order |
| HandlersRouter.HandlerRouter.Route | src/discordia/handlers/router.py:20-30 | the answer of the first handler that takes the message and answers without raising; nothing when there is none |
| DiscordBot.SafeUsername | src/discordia/bot.py:94-100 | the result is always a valid 2..32 character username |
| DiscordBot.SafeUsernameCases | src/discordia/bot.py:94-100 | missing or blank gives "unknown"; one character is padded with "_"; 2..32 characters are kept stripped; longer names are cut to 32 |
| DiscordBot.ParentOf | src/discordia/bot.py:180-183 | a parent is kept only when it is set, non-zero and a stored category |
| DiscordBot.BuiltChannel | src/discordia/bot.py:185-195 | a built channel is valid, has the raw id and the server id, and is categorized only under a stored category |
| DiscordBot.Bot.constructor | src/discordia/bot.py:110-133 | the bot holds its server id, handlers, state and account, and has sent nothing |
| DiscordBot.Bot.EnsureChannel | src/discordia/bot.py:171-200 | nothing for a missing or non-positive id; the stored channel when known; otherwise the built channel is saved and returned, or nothing when it cannot be built; the channel map becomes `ChannelsAfter` and nothing else changes |
| DiscordBot.ChannelsAfter | src/discordia/bot.py:171-200 | every stored channel stays as it was; the channel `_ensure_channel` gives is stored under the raw id; no other id is added |
| DiscordBot.FreeIdFrom | src/discordia/bot.py:286-288 | the least id from the start that no stored message uses |
| DiscordBot.ReplyId | src/discordia/bot.py:283-288 | the reply's own id when positive, else the least free id after the message's id |
| DiscordBot.BotUser | src/discordia/bot.py:270-281 | the bot user builds exactly when the bot id is a positive snowflake, with the safe username and `bot` set |
| DiscordBot.StoredReplySpec | src/discordia/bot.py:264-302 | a sent reply is stored exactly when the bot id, the channel id and the reply id are snowflakes; it is then the bot's message in that channel, under `ReplyId`, with content cut to 2000 and Discord's timestamp or the current time |
| DiscordBot.FirstAnswerIsFirstMatch | src/discordia/bot.py:253-260 | the handlers' answer is that of the handler at the first index whose `can_handle` holds, and nothing when none holds |
| DiscordBot.Bot.Dispatch | src/discordia/bot.py:253-260 | the answer of the first handler that takes the message (`FirstAnswer`); later handlers are never asked |
| DiscordBot.Bot.NextFreeId | src/discordia/bot.py:286-288 | the `while` loop ends at the least id from the start that no stored message uses (`FreeIdFrom`) |
| DiscordBot.Bot.ReplyAndRecord | src/discordia/bot.py:264-302 | a reply is sent exactly when the message can be replied to and the send does not raise, and a raising send stores nothing; after a send the bot user is upserted when it builds; the reply stored is exactly `StoredReply` (see `StoredReplySpec`), under the reply's id or else the least free id after the message's, with the bot as author and content cut to 2000, and the messages change by that reply alone |
| DiscordBot.Bot.RecordInbound | src/discordia/bot.py:221-236 | an invalid author stores nothing; otherwise the author is upserted, and the message (content cut to 2000) is stored when it builds |
| DiscordBot.Bot.Respond | src/discordia/bot.py:253-260 | the log of replies grows by exactly the first accepting handler's answer when it is non-empty, the message has `reply` and the send does not raise, and by nothing otherwise; with no reply the users and messages are unchanged; with one, the bot user and the stored reply are upserted |
| DiscordBot.Bot.OnMessage | src/discordia/bot.py:202-262 | an ignored event changes nothing and sends nothing; otherwise the channel map becomes `ChannelsAfter`; a refused channel or author leaves users and messages unchanged, and a refused message leaves only the author upserted; when all three are recorded, exactly one reply is sent, to the event's message, when the first handler that takes the message answers something non-empty, the message has `reply` and the send does not raise; then the users gain the bot user and the messages gain the inbound message followed by the stored reply; categories never change |

## Left out

- **Outside effects.** File and database I/O, logging, asyncio locks and concurrency are not modelled. The SQLite writer and the JSONL log are modelled by their contents, and the JSONL writer also keeps a ghost list of attempted writes.
- **Clock and calendar.** The wall clock (`datetime.utcnow`, `datetime.now`) is a parameter, `today` or `now`. `isoformat`, `fromisoformat` and `isocalendar` are a `Calendar.Clock` value that obeys the laws of `Calendar.Lawful`. They are not computed from the Gregorian rules.
- **Time zones and floats.** Time-zone normalisation of timestamps is not modelled: a timestamp is an integer. Neither is the float arithmetic of message ages.
- **Daily channel name.** It comes from `strftime("%Y-%m-%d")` (`managers/channel_manager.py:170`) and is modelled as the clock's `isoformat`. The two agree for years 1000 to 9999.
- **pydantic.** Its rules beyond the field validators are not modelled: immutability of frozen models, type coercion, and `extra="ignore"`. Unknown fields passed to the models are ignored by construction.
- **Unicode.** Whitespace is ASCII whitespace plus `\x1c`-`\x1f`, which `str.isspace` also counts; other Unicode spaces are left out. `\d` is the ASCII digits, and there is no case folding.
- **LLM.** The LLM client, `handle_message` and the context-size errors belong to code that is not part of this model.
- **Bot events.** `on_ready`, plugin loading and the plugins' hooks are left out. So are `is_in_thread`, `get_parent_channel` and `get_replied_message` in `context.py`, which read live Discord objects.
- **Log level.** Normalising and checking the logging handler's log level (`handlers.py:47-53`) is not modelled: the level only sets the logger's level.
- **Database lookups.** Lookups are modelled as never raising, so the `except` branches around them in `managers/channel_manager.py:172-197` are not reachable in the model.
- Jsonl.JsonlWriter.Write: a failed write is modelled by its error kind and message. The underlying `OSError` kept as the cause is not modelled.
- Remote.Guild.CreateCategory: a created category or channel has the requested name and no position. Discord itself may rename it.
- EngineReconciler.Reconciler.Reconcile: the "nothing is created twice" properties (`EngineReconciler.ReconcileTwice`) assume that the ids Discord hands out are not already in the store (`EngineReconciler.Fresh`). The registry the reconciler reads is the store it writes (`Reconciler.Valid`).
- TemplatesServer.ResolvePatterns: one `today` is used for the whole call. Python reads the clock once per pattern, so the model does not capture a call that runs across midnight.
- ManagersChannel.EnsureDailyLogChannelTwice: "no second create call" is stated under the hypothesis that the log category is stored; no caller in the code sets that up. When it is not stored, the database refuses the new channel, `save_channel` swallows the DatabaseError, and every later call creates another remote channel (`ManagersChannel.EnsureDailyLogChannelUnstored`).
- DiscordBot.Bot.OnMessage: the handlers are the logging and echo handlers of `handlers.py`, because plugins are not modelled. An attribute that is missing and one that is `None` are the same `None` in the raw event, except for the channel's `name` and the message's `content`, which the code passes through `str`: a `None` name becomes the text "None", not "unknown", and a `None` content becomes "None", not ""; the caller passes those texts (`RawChannel`, `RawMessage`).
- PatternsPrefixed.GeneratedSpec: a topic generator is modelled as a function of the suffix that returns its answer or the error it raises. Side effects of the generator, and an answer that is not a string, are not modelled.
- ModelsChannel.New: it validates the name with the corrected `ModelsChannel.ValidateName`, not with `ModelsChannel.ValidateNameAsWritten`. So a name with one final newline, such as "general\n", which `models/channel.py` accepts, is refused. Through it, discovery in `ManagersChannel.ChannelManager.DiscoverChannels` fails with "Failed to discover channels" on such a name, and `ManagersChannel.ChannelManager.CreateChannel` reports a DiscordAPIError where the code succeeds. The two validators agree on every other name (`ModelsChannel.ValidatorsAgreeWithoutNewline`).
- PersistenceMemory.MemoryBackend.Write: the entity is stored as given. Its `model_dump()` rendering into a dictionary is not modelled.
- HandlersRouter.HandlerRouter.Route: the context type is a type parameter, and a handler is a pair of functions returning a value or the error it raises.
- ManagersMessage.ChunksRejoin: the rejoin property is stated for text without empty lines, because an empty line that would start a chunk is dropped by the packing. A single line longer than the limit stays one chunk, as in the source.
- ManagersMessage.MessageHandler.SaveMessage: with a maximum length over 2000, the message model's own limit rejects the content, and the model returns that error. The source raises it.
- **Exception classes.** `CategoryNotFoundError`, `ChannelNotFoundError`, `ReconciliationError`, `DatabaseError`, `JSONLError`, `LLMAPIError` and `ContextTooLargeError` are imported by the code, but `exceptions.py` does not define them. They are declared as subclasses of `EntityNotFoundError` (the first two) and of `DiscordiaError` (the rest).
- **Undefined types.** Three more imported names are not defined anywhere in the code, so the modules that import them cannot be loaded as written; the model gives each one a reading:
  - `DiscordSnowflake` (imported by `state/models.py`, `state/registry.py`, `state/protocol.py`, `engine/discovery.py`, `engine/reconciler.py` and `engine/context.py`) is read as `DiscordID` of `types.py`: an integer in 1..2^63-1 (`Types.IsSnowflake`);
  - `CategoryName` (imported by `state/models.py` and `templates/category.py`) is read as a name of 1 to 100 characters;
  - `ValidatedSQLModel` (imported by `models/channel.py` and `models/message.py`; `models/base.py` defines only `DiscordiaModel`) is read as a model whose field validators run at construction, so a record that fails them is refused with a ValueError.

## Findings

| source | as written | input that shows it | evidently intended | confidence | as-written member | corrected member |
|---|---|---|---|---|---|---|
| src/discordia/models/channel.py:25 | the name pattern `^[a-z0-9-]{1,100}$` is applied with `re.match`, and `$` also matches just before a final newline | the channel name "general\n" is accepted | names of 1 to 100 characters from `a-z`, `0-9` and `-` only | not executed | ModelsChannel.TrailingNewlineAccepted | ModelsChannel.ValidateName |
| src/discordia/managers/channel_manager.py:30 | the log-channel pattern `^\d{4}-\d{2}-\d{2}$` is applied with `re.match`, and `$` also matches just before a final newline | the name "2024-12-14\n" is taken for a daily log channel | exactly `DDDD-DD-DD` and nothing after it | not executed | ManagersChannel.LogChannelTrailingNewline | ManagersChannel.DailyNameIsLogChannel |
