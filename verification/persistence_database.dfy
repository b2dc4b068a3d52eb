/** The first-generation persistence layer (`DatabaseWriter`): an in-memory
    stand-in for the SQL database with the same referential rules. Every
    operation first performs the lazy initialisation, which only raises the
    `initialized` flag. The database URL is kept but never interpreted. */
module PersistenceDatabase {
  import opened Outcomes
  import opened Text
  import opened Exceptions
  import opened Dicts
  import opened History
  import opened ModelsCategory
  import opened ModelsChannel
  import opened ModelsUser
  import opened ModelsMessage

  function MessageKey(m: DiscordMessage): Key
  {
    Key(m.timestamp, m.id)
  }

  /** `_select_recent`: nothing for a limit of zero or less, otherwise the
      latest `limit` messages (all of them when there are fewer) in
      ascending (timestamp, id) order. */
  function SelectRecent(messages: seq<DiscordMessage>, limit: int): (r: seq<DiscordMessage>)
    ensures limit <= 0 ==> r == []
    ensures Sorted(r, MessageKey)
    ensures multiset(r) <= multiset(messages)
    ensures limit > 0 ==> |r| == Min(limit, |messages|)
    ensures limit > 0 ==> forall x, y :: x in r && y in multiset(messages) - multiset(r) ==>
      Le(MessageKey(y), MessageKey(x))
  {
    if limit <= 0 then [] else Recent(messages, MessageKey, limit)
  }

  function CategoryNamed(name: string, serverId: int): DiscordCategory -> bool
  {
    (c: DiscordCategory) => c.name == name && c.serverId == serverId
  }

  function ChannelNamed(name: string, serverId: int): DiscordTextChannel -> bool
  {
    (c: DiscordTextChannel) => c.name == name && c.serverId == serverId
  }

  class DatabaseWriter {
    const databaseUrl: string
    var initialized: bool
    var categories: Dict<DiscordCategory>
    var channels: Dict<DiscordTextChannel>
    var users: Dict<DiscordUser>
    var messages: Dict<DiscordMessage>

    /** Well-formed dicts; a stored channel's category (when set) and a
        stored message's author and channel are stored. */
    predicate Valid()
      reads this
    {
      && Dicts.Valid(categories) && Dicts.Valid(channels) && Dicts.Valid(users) && Dicts.Valid(messages)
      && (forall k :: k in channels.entries ==>
            channels.entries[k].categoryId.None? || channels.entries[k].categoryId.value in categories.entries)
      && (forall k :: k in messages.entries ==>
            messages.entries[k].authorId in users.entries && messages.entries[k].channelId in channels.entries)
    }

    constructor (databaseUrl: string)
      ensures Valid() && !initialized && this.databaseUrl == databaseUrl
      ensures categories == Empty() && channels == Empty() && users == Empty() && messages == Empty()
    {
      this.databaseUrl := databaseUrl;
      initialized := false;
      categories, channels, users, messages := Empty(), Empty(), Empty(), Empty();
    }

    /** Idempotent: it only raises the flag. */
    method Initialize()
      modifies this`initialized
      ensures initialized
    {
      initialized := true;
    }

    method EnsureInitialized()
      modifies this`initialized
      ensures initialized
    {
      if !initialized {
        Initialize();
      }
    }

    method SaveCategory(category: DiscordCategory)
      requires Valid()
      modifies this
      ensures Valid() && initialized
      ensures categories == Put(old(categories), category.id, category)
      ensures channels == old(channels) && users == old(users) && messages == old(messages)
    {
      EnsureInitialized();
      categories := Put(categories, category.id, category);
    }

    method SaveChannel(channel: DiscordTextChannel) returns (o: Outcome<Error>)
      requires Valid()
      modifies this
      ensures Valid() && initialized
      ensures o.Fail? <==> channel.categoryId.Some? && channel.categoryId.value !in categories.entries
      ensures o.Fail? ==> o.error == Raise(DatabaseError, "Failed to save channel " + IntToString(channel.id)
                                     + ": missing category " + IntToString(channel.categoryId.value))
      ensures o.Fail? ==> channels == old(channels)
      ensures o.Pass? ==> channels == Put(old(channels), channel.id, channel)
      ensures categories == old(categories) && users == old(users) && messages == old(messages)
    {
      EnsureInitialized();
      if channel.categoryId.Some? && channel.categoryId.value !in categories.entries {
        return Fail(Raise(DatabaseError, "Failed to save channel " + IntToString(channel.id)
                          + ": missing category " + IntToString(channel.categoryId.value)));
      }
      channels := Put(channels, channel.id, channel);
      return Pass;
    }

    method SaveUser(user: DiscordUser)
      requires Valid()
      modifies this
      ensures Valid() && initialized
      ensures users == Put(old(users), user.id, user)
      ensures categories == old(categories) && channels == old(channels) && messages == old(messages)
    {
      EnsureInitialized();
      users := Put(users, user.id, user);
    }

    /** The author is checked before the channel. */
    method SaveMessage(message: DiscordMessage) returns (o: Outcome<Error>)
      requires Valid()
      modifies this
      ensures Valid() && initialized
      ensures o.Fail? <==> message.authorId !in users.entries || message.channelId !in channels.entries
      ensures message.authorId !in users.entries ==>
        o == Fail(Raise(DatabaseError, "Failed to save message " + IntToString(message.id) + ": missing user " + IntToString(message.authorId)))
      ensures message.authorId in users.entries && message.channelId !in channels.entries ==>
        o == Fail(Raise(DatabaseError, "Failed to save message " + IntToString(message.id) + ": missing channel " + IntToString(message.channelId)))
      ensures o.Fail? ==> messages == old(messages)
      ensures o.Pass? ==> messages == Put(old(messages), message.id, message)
      ensures categories == old(categories) && channels == old(channels) && users == old(users)
    {
      EnsureInitialized();
      if message.authorId !in users.entries {
        return Fail(Raise(DatabaseError, "Failed to save message " + IntToString(message.id) + ": missing user " + IntToString(message.authorId)));
      }
      if message.channelId !in channels.entries {
        return Fail(Raise(DatabaseError, "Failed to save message " + IntToString(message.id) + ": missing channel " + IntToString(message.channelId)));
      }
      messages := Put(messages, message.id, message);
      return Pass;
    }

    method GetCategory(categoryId: int) returns (r: Option<DiscordCategory>)
      modifies this`initialized
      ensures initialized
      ensures r == Get(categories, categoryId)
    {
      EnsureInitialized();
      r := Get(categories, categoryId);
    }

    method GetChannel(channelId: int) returns (r: Option<DiscordTextChannel>)
      modifies this`initialized
      ensures initialized
      ensures r == Get(channels, channelId)
    {
      EnsureInitialized();
      r := Get(channels, channelId);
    }

    /** An early-return scan over the categories in insertion order. */
    method GetCategoryByName(name: string, serverId: int) returns (r: Option<DiscordCategory>)
      requires Valid()
      modifies this`initialized
      ensures initialized
      ensures r == FirstWhere(Values(categories), CategoryNamed(name, serverId))
    {
      EnsureInitialized();
      var values := Values(categories);
      var i := 0;
      while i < |values|
        invariant 0 <= i <= |values|
        invariant forall j :: 0 <= j < i ==> !CategoryNamed(name, serverId)(values[j])
      {
        if values[i].name == name && values[i].serverId == serverId {
          FirstWhereAt(values, CategoryNamed(name, serverId), i);
          return Some(values[i]);
        }
        i := i + 1;
      }
      return None;
    }

    method GetChannelByName(name: string, serverId: int) returns (r: Option<DiscordTextChannel>)
      requires Valid()
      modifies this`initialized
      ensures initialized
      ensures r == FirstWhere(Values(channels), ChannelNamed(name, serverId))
    {
      EnsureInitialized();
      var values := Values(channels);
      var i := 0;
      while i < |values|
        invariant 0 <= i <= |values|
        invariant forall j :: 0 <= j < i ==> !ChannelNamed(name, serverId)(values[j])
      {
        if values[i].name == name && values[i].serverId == serverId {
          FirstWhereAt(values, ChannelNamed(name, serverId), i);
          return Some(values[i]);
        }
        i := i + 1;
      }
      return None;
    }

    function ChannelMessages(channelId: int): seq<DiscordMessage>
      reads this
      requires Valid()
    {
      Filter(Values(messages), (m: DiscordMessage) => m.channelId == channelId)
    }

    method GetMessages(channelId: int, limit: int) returns (r: seq<DiscordMessage>)
      requires Valid()
      modifies this`initialized
      ensures initialized
      ensures r == SelectRecent(ChannelMessages(channelId), limit)
    {
      EnsureInitialized();
      r := SelectRecent(ChannelMessages(channelId), limit);
    }
  }
}
