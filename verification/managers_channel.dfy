/** The first-generation channel manager: discovery of the guild's text
    channels, creation of a channel remotely, the daily log channel named
    after today's date, and lookups in the database. Saves go to the
    database and then to the JSONL backup and never raise: a failure of
    either sink is swallowed on its own. */
module ManagersChannel {
  import opened Outcomes
  import opened Text
  import opened Exceptions
  import opened Dicts
  import opened Batches
  import opened Calendar
  import opened Remote
  import opened ModelsCategory
  import opened ModelsChannel
  import opened Jsonl
  import PersistenceDatabase

  /** What `LOG_CHANNEL_PATTERN.match` accepts as written: `^\d{4}-\d{2}-\d{2}$`
      where `$` also matches just before a final newline, so a date followed
      by one newline passes too. */
  predicate IsLogChannelAsWritten(name: string)
  {
    IsoDateShape(name) || (|name| == 11 && name[10] == '\n' && IsoDateShape(name[..10]))
  }

  /** The rule the pattern evidently intends: exactly four digits, '-', two
      digits, '-', two digits. Month and day ranges are not checked. */
  predicate IsLogChannel(name: string)
  {
    IsoDateShape(name)
  }

  /** A date name followed by a newline is taken for a log channel as
      written, and refused by the intended rule. */
  lemma LogChannelTrailingNewline()
    ensures IsLogChannelAsWritten("2024-12-14\n")
    ensures !IsLogChannel("2024-12-14\n")
  {
    assert "2024-12-14\n"[..10] == "2024-12-14";
  }

  /** The two readings differ only on names ending in a newline. */
  lemma LogChannelReadingsAgree(name: string)
    requires |name| == 0 || name[|name| - 1] != '\n'
    ensures IsLogChannelAsWritten(name) <==> IsLogChannel(name)
  {
  }

  /** `get_daily_channel_name`: today's date in `YYYY-MM-DD` form. */
  function DailyChannelName(today: int, clock: Clock): string
  {
    clock.isoformat(today)
  }

  /** The daily name is always a log-channel name, under either reading. */
  lemma DailyNameIsLogChannel(today: int, clock: Clock)
    requires Lawful(clock) && InRange(today)
    ensures IsLogChannel(DailyChannelName(today, clock))
    ensures IsLogChannelAsWritten(DailyChannelName(today, clock))
  {
  }

  /** One iteration of the discovery loop: other kinds contribute nothing;
      a text item contributes its record, under its parent when the parent
      id is truthy, or the validation error. */
  function ChannelStep(item: Item, serverId: int): Result<seq<DiscordTextChannel>, Error>
  {
    if !IsTextItem(item) then Ok([])
    else match ModelsChannel.New(item.id, item.name, serverId, ParentOrNone(item), PositionOrZero(item))
      case Ok(c) => Ok([c])
      case Err(e) => Err(e)
  }

  function ChannelSteps(items: seq<Item>, serverId: int): (rs: seq<Result<seq<DiscordTextChannel>, Error>>)
    ensures |rs| == |items| && forall i :: 0 <= i < |items| ==> rs[i] == ChannelStep(items[i], serverId)
  {
    seq(|items|, i requires 0 <= i < |items| => ChannelStep(items[i], serverId))
  }

  /** The channels the loop collects, or the error that stopped it. */
  function DiscoveredChannels(items: seq<Item>, serverId: int): Result<seq<DiscordTextChannel>, Error>
  {
    Joined(ChannelSteps(items, serverId))
  }

  /** The record built for a text-channel item. */
  function ChannelRecord(item: Item, serverId: int): DiscordTextChannel
  {
    DiscordTextChannel(item.id, item.name, serverId, ParentOrNone(item), PositionOrZero(item))
  }

  function ChannelRecords(items: seq<Item>, serverId: int): (cs: seq<DiscordTextChannel>)
    ensures |cs| == |items| && forall i :: 0 <= i < |items| ==> cs[i] == ChannelRecord(items[i], serverId)
  {
    seq(|items|, i requires 0 <= i < |items| => ChannelRecord(items[i], serverId))
  }

  /** The backup lines written for a list of channels, in order. */
  function ChannelEntries(cs: seq<DiscordTextChannel>): (es: seq<Entry>)
    ensures |es| == |cs| && forall i :: 0 <= i < |cs| ==> es[i] == ChannelEntry(cs[i])
  {
    seq(|cs|, i requires 0 <= i < |cs| => ChannelEntry(cs[i]))
  }

  function ChannelId(c: DiscordTextChannel): int { c.id }

  /** The database accepts a channel that is uncategorized or whose
      category it holds. */
  function Storable(categories: map<int, DiscordCategory>): DiscordTextChannel -> bool
  {
    (c: DiscordTextChannel) => c.categoryId.None? || c.categoryId.value in categories
  }

  /** What the database holds after saving `cs` in order over `d`, the
      refused ones skipped. */
  function SavedAll(d: Dict<DiscordTextChannel>, cs: seq<DiscordTextChannel>, categories: map<int, DiscordCategory>): Dict<DiscordTextChannel>
    requires Dicts.Valid(d)
  {
    PutAll(d, Filter(cs, Storable(categories)), ChannelId)
  }

  /** Saving one more channel after the ones collected so far. */
  lemma SavedStep(d: Dict<DiscordTextChannel>, cs: seq<DiscordTextChannel>, c: DiscordTextChannel,
                  categories: map<int, DiscordCategory>)
    requires Dicts.Valid(d)
    ensures SavedAll(d, cs + [c], categories) ==
              if Storable(categories)(c) then Put(SavedAll(d, cs, categories), c.id, c) else SavedAll(d, cs, categories)
    ensures ChannelEntries(cs + [c]) == ChannelEntries(cs) + [ChannelEntry(c)]
  {
    var p := Storable(categories);
    FilterLast(cs + [c], p);
    assert (cs + [c])[..|cs|] == cs;
    var f := Filter(cs, p);
    if p(c) {
      PutAllAppend(d, f, c, ChannelId);
    } else {
      assert f + [] == f;
    }
  }

  class ChannelManager {
    const db: PersistenceDatabase.DatabaseWriter
    const jsonl: JsonlWriter
    const serverId: int

    constructor (db: PersistenceDatabase.DatabaseWriter, jsonl: JsonlWriter, serverId: int)
      ensures this.db == db && this.jsonl == jsonl && this.serverId == serverId
    {
      this.db := db;
      this.jsonl := jsonl;
      this.serverId := serverId;
    }

    /** `save_channel`: the database refuses a channel under a category it
        does not hold, and that DatabaseError is swallowed; the backup write
        is attempted either way, and its failure is swallowed too. */
    method SaveChannel(channel: DiscordTextChannel)
      requires db.Valid()
      modifies db, jsonl
      ensures db.Valid()
      ensures db.channels == if Storable(db.categories.entries)(channel) then Put(old(db.channels), channel.id, channel)
                             else old(db.channels)
      ensures db.categories == old(db.categories) && db.users == old(db.users) && db.messages == old(db.messages)
      ensures jsonl.attempts == old(jsonl.attempts) + [ChannelEntry(channel)]
      ensures jsonl.lines == old(jsonl.lines) || jsonl.lines == old(jsonl.lines) + [ChannelEntry(channel)]
    {
      var saved := db.SaveChannel(channel);
      var written := jsonl.WriteChannel(channel);
    }

    /** One save of the discovery loop, in terms of everything collected
        so far. */
    method SaveCollected(ghost d0: Dict<DiscordTextChannel>, ghost a0: seq<Entry>,
                         channels: seq<DiscordTextChannel>, channel: DiscordTextChannel)
      requires db.Valid() && Dicts.Valid(d0)
      requires db.channels == SavedAll(d0, channels, db.categories.entries)
      requires jsonl.attempts == a0 + ChannelEntries(channels)
      modifies db, jsonl
      ensures db.Valid()
      ensures db.channels == SavedAll(d0, channels + [channel], db.categories.entries)
      ensures jsonl.attempts == a0 + ChannelEntries(channels + [channel])
      ensures db.categories == old(db.categories) && db.users == old(db.users) && db.messages == old(db.messages)
    {
      SavedStep(d0, channels, channel, db.categories.entries);
      SaveChannel(channel);
    }

    /** `discover_channels`: the text channels collected, or
        DiscordAPIError("Failed to discover channels") wrapping the
        validation error that stopped the loop. Each collected channel was
        saved once, in guild order; the database kept those whose category
        it holds. */
    method DiscoverChannels(guild: Guild) returns (r: Result<seq<DiscordTextChannel>, Error>)
      requires db.Valid()
      modifies db, jsonl
      ensures db.Valid()
      ensures r == Wrapped(DiscoveredChannels(guild.channels, serverId), "Failed to discover channels")
      ensures r.Ok? ==> db.channels == SavedAll(old(db.channels), r.value, db.categories.entries)
                        && jsonl.attempts == old(jsonl.attempts) + ChannelEntries(r.value)
      ensures r.Err? ==> exists n :: (0 <= n < |guild.channels|
                && Joined(ChannelSteps(guild.channels, serverId)[..n]).Ok?
                && ChannelSteps(guild.channels, serverId)[n].Err?
                && db.channels == SavedAll(old(db.channels), Joined(ChannelSteps(guild.channels, serverId)[..n]).value,
                                           db.categories.entries))
      ensures db.categories == old(db.categories) && db.users == old(db.users) && db.messages == old(db.messages)
    {
      var items := guild.channels;
      ghost var rs := ChannelSteps(items, serverId);
      var channels := [];
      for i := 0 to |items|
        invariant db.Valid()
        invariant Joined(rs[..i]) == Ok(channels)
        invariant db.channels == SavedAll(old(db.channels), channels, db.categories.entries)
        invariant jsonl.attempts == old(jsonl.attempts) + ChannelEntries(channels)
        invariant db.categories == old(db.categories) && db.users == old(db.users) && db.messages == old(db.messages)
      {
        JoinedStep(rs, i);
        var item := items[i];
        if item.kind == TextKind {
          var channel := ModelsChannel.New(item.id, item.name, serverId, ParentOrNone(item), PositionOrZero(item));
          if channel.Err? {
            JoinedFailsFrom(rs, i + 1);
            return Err(Raise(DiscordAPIError, "Failed to discover channels", Some(channel.error)));
          }
          SaveCollected(old(db.channels), old(jsonl.attempts), channels, channel.value);
          channels := channels + [channel.value];
        } else {
          assert channels + [] == channels;
        }
      }
      assert rs[..|items|] == rs;
      return Ok(channels);
    }

    /** `get_channel`: the stored channel with that id, or
        ChannelNotFoundError. */
    method GetChannel(channelId: int) returns (r: Result<DiscordTextChannel, Error>)
      modifies db`initialized
      ensures r.Ok? <==> channelId in db.channels.entries
      ensures r.Ok? ==> r.value == db.channels.entries[channelId]
      ensures r.Err? ==> r.error == Raise(ChannelNotFoundError, "Channel " + IntToString(channelId) + " not found")
    {
      var channel := db.GetChannel(channelId);
      if channel.None? {
        return Err(Raise(ChannelNotFoundError, "Channel " + IntToString(channelId) + " not found"));
      }
      return Ok(channel.value);
    }

    /** `create_channel`: one `create_text_channel` call with the name and
        the category as parent; the new channel keeps the requested
        category and is saved. Any failure, remote or validation, becomes
        DiscordAPIError("Failed to create channel: <name>"). */
    method CreateChannel(guild: Guild, name: string, categoryId: Option<int>) returns (r: Result<DiscordTextChannel, Error>)
      requires db.Valid()
      modifies db, jsonl, guild
      ensures db.Valid()
      ensures guild.calls == old(guild.calls) + [TextChannelCreated(name, categoryId, None)]
      ensures r.Ok? ==> r.value == DiscordTextChannel(old(guild.nextId), name, serverId, categoryId, 0)
                        && ModelsChannel.Valid(r.value)
                        && db.channels == if Storable(db.categories.entries)(r.value) then Put(old(db.channels), r.value.id, r.value)
                                          else old(db.channels)
      ensures r.Err? ==> r.error.kind == DiscordAPIError && r.error.message == "Failed to create channel: " + name
                         && r.error.cause.Some? && db.channels == old(db.channels)
      ensures r.Ok? ==> jsonl.attempts == old(jsonl.attempts) + [ChannelEntry(r.value)]
                        && (jsonl.lines == old(jsonl.lines) || jsonl.lines == old(jsonl.lines) + [ChannelEntry(r.value)])
      ensures r.Err? ==> jsonl.attempts == old(jsonl.attempts) && jsonl.lines == old(jsonl.lines)
      ensures db.categories == old(db.categories) && db.users == old(db.users) && db.messages == old(db.messages)
    {
      var created := guild.CreateTextChannel(name, categoryId, None);
      if created.Err? {
        return Err(Raise(DiscordAPIError, "Failed to create channel: " + name, Some(created.error)));
      }
      var channel := ModelsChannel.New(created.value.id, created.value.name, serverId, categoryId, PositionOrZero(created.value));
      if channel.Err? {
        return Err(Raise(DiscordAPIError, "Failed to create channel: " + name, Some(channel.error)));
      }
      SaveChannel(channel.value);
      return Ok(channel.value);
    }

    /** `ensure_daily_log_channel`: a stored channel of this server named
        after today is returned without any create call; otherwise exactly
        one text channel with today's name is created under the log
        category. */
    method EnsureDailyLogChannel(guild: Guild, logCategoryId: int, today: int, clock: Clock)
      returns (r: Result<DiscordTextChannel, Error>)
      requires db.Valid()
      modifies db, jsonl, guild
      ensures db.Valid()
      ensures var existing := FirstWhere(Values(old(db.channels)), PersistenceDatabase.ChannelNamed(DailyChannelName(today, clock), serverId));
              existing.Some? ==> r == Ok(existing.value) && guild.calls == old(guild.calls) && db.channels == old(db.channels)
                                 && jsonl.attempts == old(jsonl.attempts) && jsonl.lines == old(jsonl.lines)
      ensures var existing := FirstWhere(Values(old(db.channels)), PersistenceDatabase.ChannelNamed(DailyChannelName(today, clock), serverId));
              existing.None? ==>
                && guild.calls == old(guild.calls) + [TextChannelCreated(DailyChannelName(today, clock), Some(logCategoryId), None)]
                && (r.Ok? ==> r.value.categoryId == Some(logCategoryId)
                              && db.channels == if Storable(db.categories.entries)(r.value) then Put(old(db.channels), r.value.id, r.value)
                                                else old(db.channels))
                && (r.Err? ==> db.channels == old(db.channels))
                && (r.Ok? ==> jsonl.attempts == old(jsonl.attempts) + [ChannelEntry(r.value)]
                              && (jsonl.lines == old(jsonl.lines) || jsonl.lines == old(jsonl.lines) + [ChannelEntry(r.value)]))
                && (r.Err? ==> jsonl.attempts == old(jsonl.attempts) && jsonl.lines == old(jsonl.lines))
      ensures r.Ok? ==> r.value.name == DailyChannelName(today, clock) && r.value.serverId == serverId
      ensures db.categories == old(db.categories) && db.users == old(db.users) && db.messages == old(db.messages)
    {
      var channelName := DailyChannelName(today, clock);
      var channel := db.GetChannelByName(channelName, serverId);
      if channel.Some? {
        return Ok(channel.value);
      }
      r := CreateChannel(guild, channelName, Some(logCategoryId));
    }
  }

  /** Two calls on the same day, when the log category is stored: once the
      first has produced the channel, the second finds it and makes no
      create call. */
  method EnsureDailyLogChannelTwice(manager: ChannelManager, guild: Guild, logCategoryId: int, today: int, clock: Clock)
    returns (first: Result<DiscordTextChannel, Error>, second: Result<DiscordTextChannel, Error>, ghost afterFirst: seq<Call>)
    requires manager.db.Valid() && logCategoryId in manager.db.categories.entries
    modifies manager.db, manager.jsonl, guild
    ensures first.Ok? ==> second.Ok? && guild.calls == afterFirst && second.value.name == first.value.name
  {
    first := manager.EnsureDailyLogChannel(guild, logCategoryId, today, clock);
    afterFirst := guild.calls;
    if first.Ok? {
      var c := first.value;
      var p := PersistenceDatabase.ChannelNamed(DailyChannelName(today, clock), manager.serverId);
      if FirstWhere(Values(old(manager.db.channels)), p).None? {
        assert Storable(manager.db.categories.entries)(c);
        assert manager.db.channels.entries[c.id] == c;
        ValuesAreEntries(manager.db.channels, c);
      } else {
        assert c in Values(manager.db.channels);
      }
      assert c in Values(manager.db.channels);
      assert p(c);
    }
    second := manager.EnsureDailyLogChannel(guild, logCategoryId, today, clock);
  }

  /** Two calls on the same day when the log category is not stored: the
      database refuses the new channel under it, `save_channel` swallows
      that error, so the second call finds no channel either and creates
      another one. */
  method EnsureDailyLogChannelUnstored(manager: ChannelManager, guild: Guild, logCategoryId: int, today: int, clock: Clock)
    returns (first: Result<DiscordTextChannel, Error>, second: Result<DiscordTextChannel, Error>)
    requires manager.db.Valid() && logCategoryId !in manager.db.categories.entries
    modifies manager.db, manager.jsonl, guild
    ensures var name := DailyChannelName(today, clock);
            FirstWhere(Values(old(manager.db.channels)), PersistenceDatabase.ChannelNamed(name, manager.serverId)).None? ==>
              && guild.calls == old(guild.calls) + [TextChannelCreated(name, Some(logCategoryId), None),
                                                    TextChannelCreated(name, Some(logCategoryId), None)]
              && manager.db.channels == old(manager.db.channels)
  {
    first := manager.EnsureDailyLogChannel(guild, logCategoryId, today, clock);
    second := manager.EnsureDailyLogChannel(guild, logCategoryId, today, clock);
  }

  lemma ChannelRecordsAppend(items: seq<Item>, item: Item, serverId: int)
    ensures ChannelRecords(items + [item], serverId) == ChannelRecords(items, serverId) + [ChannelRecord(item, serverId)]
  {
  }

  lemma ChannelStepsPrefix(items: seq<Item>, serverId: int, n: nat)
    requires n <= |items|
    ensures ChannelSteps(items, serverId)[..n] == ChannelSteps(items[..n], serverId)
  {
  }

  /** On success the output is the records of the text items, in guild
      order. */
  lemma {:induction false} ChannelsInOrder(items: seq<Item>, serverId: int)
    ensures DiscoveredChannels(items, serverId).Ok? ==>
              DiscoveredChannels(items, serverId).value == ChannelRecords(Filter(items, IsTextItem), serverId)
    decreases |items|
  {
    var rs := ChannelSteps(items, serverId);
    if items != [] && Joined(rs).Ok? {
      var last := |items| - 1;
      var init := items[..last];
      ChannelStepsPrefix(items, serverId, last);
      JoinedOk(rs);
      JoinedStep(rs, last);
      assert rs[..last + 1] == rs;
      ChannelsInOrder(init, serverId);
      FilterLast(items, IsTextItem);
      var before := Filter(init, IsTextItem);
      if IsTextItem(items[last]) {
        ChannelRecordsAppend(before, items[last], serverId);
      } else {
        assert before + [] == before;
      }
    }
  }

  /** Discovery returns exactly the text items' records, in guild order,
      each under its truthy parent id or under none; it fails exactly when
      some text item makes an invalid record, with a validation error. */
  lemma DiscoveredChannelsSpec(items: seq<Item>, serverId: int)
    ensures DiscoveredChannels(items, serverId).Ok? <==>
              forall i :: 0 <= i < |items| && IsTextItem(items[i]) ==>
                ModelsChannel.New(items[i].id, items[i].name, serverId, ParentOrNone(items[i]), PositionOrZero(items[i])).Ok?
    ensures DiscoveredChannels(items, serverId).Ok? ==>
              DiscoveredChannels(items, serverId).value == ChannelRecords(Filter(items, IsTextItem), serverId)
    ensures DiscoveredChannels(items, serverId).Err? ==> DiscoveredChannels(items, serverId).error.kind == ValueError
  {
    var rs := ChannelSteps(items, serverId);
    JoinedOk(rs);
    ChannelsInOrder(items, serverId);
  }
}
