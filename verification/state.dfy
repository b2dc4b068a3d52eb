/** The second-generation store module: entity records with derived flags
    and an in-memory store with write-time referential checks. Its records
    carry the same fields as the third-generation ones once the clock-stamped
    `created_at`/`updated_at` are dropped, so the record datatypes are
    shared; the field constraints and the store's rules are this module's
    own. */
module State {
  import opened Outcomes
  import opened Text
  import opened Exceptions
  import opened Types
  import opened Dicts
  import opened History
  import StateModels

  type Category = StateModels.Category
  type Channel = StateModels.Channel
  type User = StateModels.User
  type Message = StateModels.Message

  predicate ValidCategory(c: Category)
  {
    IsSnowflake(c.id) && 1 <= |c.name| <= 100 && IsSnowflake(c.serverId) && c.position >= 0
  }

  predicate ValidChannel(c: Channel)
  {
    && IsSnowflake(c.id) && IsChannelName(c.name) && IsSnowflake(c.serverId)
    && (c.categoryId.None? || IsSnowflake(c.categoryId.value))
    && c.position >= 0
    && (c.topic.None? || |c.topic.value| <= 1024)
  }

  predicate ValidUser(u: User)
  {
    IsSnowflake(u.id) && IsUsername(u.username)
  }

  predicate ValidMessage(m: Message)
  {
    IsSnowflake(m.id) && IsMessageContent(m.content) && IsSnowflake(m.authorId) && IsSnowflake(m.channelId)
  }

  /** The computed `is_categorized` field. */
  function IsCategorized(c: Channel): (r: bool)
    ensures r <==> c.categoryId.Some?
  {
    c.categoryId != None
  }

  /** The computed `is_edited` field. */
  function IsEdited(m: Message): (r: bool)
    ensures r <==> m.editedAt.Some?
  {
    m.editedAt != None
  }

  function Invalid(model: string): Error
  {
    Raise(ValueError, "validation error for " + model)
  }

  /** `Category(...)`: validation either yields the record with exactly the
      given fields or fails with a ValueError. */
  function NewCategory(id: int, name: string, serverId: int, position: int := 0): (r: Result<Category, Error>)
    ensures r.Ok? <==> IsSnowflake(id) && 1 <= |name| <= 100 && IsSnowflake(serverId) && position >= 0
    ensures r.Ok? ==> r.value == StateModels.Category(id, name, serverId, position) && ValidCategory(r.value)
    ensures r.Err? ==> r.error.kind == ValueError
  {
    var c := StateModels.Category(id, name, serverId, position);
    if ValidCategory(c) then Ok(c) else Err(Invalid("Category"))
  }

  /** `Channel(...)`: as for categories, with the channel's own field rules. */
  function NewChannel(id: int, name: string, serverId: int, categoryId: Option<int> := None,
                      position: int := 0, topic: Option<string> := None): (r: Result<Channel, Error>)
    ensures r.Ok? <==> && IsSnowflake(id) && IsChannelName(name) && IsSnowflake(serverId)
                       && (categoryId.None? || IsSnowflake(categoryId.value))
                       && position >= 0 && (topic.None? || |topic.value| <= 1024)
    ensures r.Ok? ==> r.value == StateModels.Channel(id, name, serverId, categoryId, position, topic) && ValidChannel(r.value)
    ensures r.Err? ==> r.error.kind == ValueError
  {
    var c := StateModels.Channel(id, name, serverId, categoryId, position, topic);
    if ValidChannel(c) then Ok(c) else Err(Invalid("Channel"))
  }

  /** `User(...)`: a snowflake id and a username of 2 to 32 characters. */
  function NewUser(id: int, username: string, discriminator: string := "0", bot: bool := false): (r: Result<User, Error>)
    ensures r.Ok? <==> IsSnowflake(id) && IsUsername(username)
    ensures r.Ok? ==> r.value == StateModels.User(id, username, discriminator, bot) && ValidUser(r.value)
    ensures r.Err? ==> r.error.kind == ValueError
  {
    var u := StateModels.User(id, username, discriminator, bot);
    if ValidUser(u) then Ok(u) else Err(Invalid("User"))
  }

  /** `Message(...)`: snowflake ids and at most 2000 characters of content. */
  function NewMessage(id: int, content: string, authorId: int, channelId: int, timestamp: int,
                      editedAt: Option<int> := None): (r: Result<Message, Error>)
    ensures r.Ok? <==> IsSnowflake(id) && IsMessageContent(content) && IsSnowflake(authorId) && IsSnowflake(channelId)
    ensures r.Ok? ==> r.value == StateModels.Message(id, content, authorId, channelId, timestamp, editedAt) && ValidMessage(r.value)
    ensures r.Err? ==> r.error.kind == ValueError
  {
    var m := StateModels.Message(id, content, authorId, channelId, timestamp, editedAt);
    if ValidMessage(m) then Ok(m) else Err(Invalid("Message"))
  }

  function MessageKey(m: Message): Key
  {
    Key(m.timestamp, m.id)
  }

  predicate KeyedById<V>(d: Dict<V>, id: V -> int)
  {
    forall k :: k in d.entries ==> id(d.entries[k]) == k
  }

  class MemoryState {
    var categories: Dict<Category>
    var channels: Dict<Channel>
    var users: Dict<User>
    var messages: Dict<Message>

    /** Well-formed dicts keyed by id holding valid records; a categorized
        channel's category, and a message's author and channel, are
        stored. */
    predicate Valid()
      reads this
    {
      && Dicts.Valid(categories) && Dicts.Valid(channels) && Dicts.Valid(users) && Dicts.Valid(messages)
      && KeyedById(categories, (c: Category) => c.id)
      && KeyedById(channels, (c: Channel) => c.id)
      && KeyedById(users, (u: User) => u.id)
      && KeyedById(messages, (m: Message) => m.id)
      && (forall k :: k in channels.entries ==> ValidChannel(channels.entries[k]))
      && (forall k :: k in channels.entries && IsCategorized(channels.entries[k]) ==>
            channels.entries[k].categoryId.value in categories.entries)
      && (forall k :: k in messages.entries ==>
            messages.entries[k].authorId in users.entries && messages.entries[k].channelId in channels.entries)
    }

    constructor ()
      ensures Valid()
      ensures categories == Empty() && channels == Empty() && users == Empty() && messages == Empty()
    {
      categories, channels, users, messages := Empty(), Empty(), Empty(), Empty();
    }

    method SaveCategory(category: Category)
      requires Valid()
      modifies this
      ensures Valid()
      ensures categories == Put(old(categories), category.id, category)
      ensures channels == old(channels) && users == old(users) && messages == old(messages)
    {
      categories := Put(categories, category.id, category);
    }

    /** The category test is Python truthiness on the id; a validated
        channel's category id is never 0, so it fails exactly when the
        channel is categorized under an unknown category. */
    method SaveChannel(channel: Channel) returns (o: Outcome<Error>)
      requires Valid() && ValidChannel(channel)
      modifies this
      ensures Valid()
      ensures o.Fail? <==> IsCategorized(channel) && channel.categoryId.value !in categories.entries
      ensures o.Fail? ==> o.error == Raise(StateError, "Category " + IntToString(channel.categoryId.value) + " not found")
      ensures o.Fail? ==> channels == old(channels)
      ensures o.Pass? ==> channels == Put(old(channels), channel.id, channel)
      ensures categories == old(categories) && users == old(users) && messages == old(messages)
    {
      if channel.categoryId.Some? && channel.categoryId.value != 0 && channel.categoryId.value !in categories.entries {
        return Fail(Raise(StateError, "Category " + IntToString(channel.categoryId.value) + " not found"));
      }
      channels := Put(channels, channel.id, channel);
      return Pass;
    }

    method SaveUser(user: User)
      requires Valid()
      modifies this
      ensures Valid()
      ensures users == Put(old(users), user.id, user)
      ensures categories == old(categories) && channels == old(channels) && messages == old(messages)
    {
      users := Put(users, user.id, user);
    }

    method SaveMessage(message: Message) returns (o: Outcome<Error>)
      requires Valid()
      modifies this
      ensures Valid()
      ensures o.Fail? <==> message.authorId !in users.entries || message.channelId !in channels.entries
      ensures message.authorId !in users.entries ==>
        o == Fail(Raise(StateError, "User " + IntToString(message.authorId) + " not found"))
      ensures message.authorId in users.entries && message.channelId !in channels.entries ==>
        o == Fail(Raise(StateError, "Channel " + IntToString(message.channelId) + " not found"))
      ensures o.Fail? ==> messages == old(messages)
      ensures o.Pass? ==> messages == Put(old(messages), message.id, message)
      ensures categories == old(categories) && channels == old(channels) && users == old(users)
    {
      if message.authorId !in users.entries {
        return Fail(Raise(StateError, "User " + IntToString(message.authorId) + " not found"));
      }
      if message.channelId !in channels.entries {
        return Fail(Raise(StateError, "Channel " + IntToString(message.channelId) + " not found"));
      }
      messages := Put(messages, message.id, message);
      return Pass;
    }

    function GetCategory(id: int): (r: Option<Category>)
      reads this
      ensures r.Some? <==> id in categories.entries
      ensures r.Some? ==> r.value == categories.entries[id]
    {
      Get(categories, id)
    }

    function GetChannel(id: int): (r: Option<Channel>)
      reads this
      ensures r.Some? <==> id in channels.entries
      ensures r.Some? ==> r.value == channels.entries[id]
    {
      Get(channels, id)
    }

    function GetUser(id: int): (r: Option<User>)
      reads this
      ensures r.Some? <==> id in users.entries
      ensures r.Some? ==> r.value == users.entries[id]
    {
      Get(users, id)
    }

    function GetMessage(id: int): (r: Option<Message>)
      reads this
      ensures r.Some? <==> id in messages.entries
      ensures r.Some? ==> r.value == messages.entries[id]
    {
      Get(messages, id)
    }

    function ChannelMessages(channelId: int): (r: seq<Message>)
      reads this
      requires Valid()
      ensures forall m :: m in r <==> m in Values(messages) && m.channelId == channelId
    {
      Filter(Values(messages), (m: Message) => m.channelId == channelId)
    }

    function GetMessages(channelId: int, limit: int): (r: seq<Message>)
      reads this
      requires Valid()
      ensures Sorted(r, MessageKey)
      ensures forall m :: m in r ==> m.channelId == channelId && m.id in messages.entries && messages.entries[m.id] == m
      ensures multiset(r) <= multiset(ChannelMessages(channelId))
      ensures limit <= 0 ==> multiset(r) == multiset(ChannelMessages(channelId))
      ensures limit > 0 ==> |r| == Min(limit, |ChannelMessages(channelId)|)
      ensures forall x, y :: x in r && y in multiset(ChannelMessages(channelId)) - multiset(r) ==>
        Le(MessageKey(y), MessageKey(x))
    {
      var r := Recent(ChannelMessages(channelId), MessageKey, limit);
      forall m | m in r
        ensures m.channelId == channelId && m.id in messages.entries && messages.entries[m.id] == m
      {
        assert m in multiset(ChannelMessages(channelId));
        ValuesAreEntries(messages, m);
      }
      r
    }

    /** A categorized stored channel's category can be fetched. */
    lemma CategorizedChannelsResolve(id: int)
      requires Valid() && GetChannel(id).Some? && IsCategorized(GetChannel(id).value)
      ensures GetCategory(GetChannel(id).value.categoryId.value).Some?
    {
    }
  }

  /** The store accepts a message only once its author and its channel are
      both stored: the first attempt fails on the author, the second on the
      channel, the third succeeds. */
  method SaveMessageOrder(store: MemoryState, user: User, channel: Channel, message: Message)
    returns (first: Outcome<Error>, second: Outcome<Error>, third: Outcome<Error>)
    requires store.Valid() && ValidChannel(channel) && channel.categoryId.None?
    requires message.authorId == user.id && message.channelId == channel.id
    requires user.id !in store.users.entries && channel.id !in store.channels.entries
    modifies store
    ensures store.Valid()
    ensures first.Fail? && first.error.message == "User " + IntToString(user.id) + " not found"
    ensures second.Fail? && second.error.message == "Channel " + IntToString(channel.id) + " not found"
    ensures third.Pass? && store.GetMessage(message.id) == Some(message)
  {
    first := store.SaveMessage(message);
    store.SaveUser(user);
    second := store.SaveMessage(message);
    var saved := store.SaveChannel(channel);
    third := store.SaveMessage(message);
  }
}
