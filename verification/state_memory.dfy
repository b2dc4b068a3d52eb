/** The third-generation in-memory store: four id-keyed dicts updated in
    place, with referential checks at write time and an ordered, truncated
    history query. Each operation runs to completion before the next (the
    store's lock is not modelled). */
module StateMemory {
  import opened Outcomes
  import opened Text
  import opened Exceptions
  import opened Dicts
  import opened History
  import opened StateModels

  function MessageKey(m: Message): Key
  {
    Key(m.timestamp, m.id)
  }

  /** Every dict is keyed by the id of the value stored under it. */
  predicate KeyedById<V>(d: Dict<V>, id: V -> int)
  {
    forall k :: k in d.entries ==> id(d.entries[k]) == k
  }

  class MemoryState {
    var categories: Dict<Category>
    var channels: Dict<Channel>
    var users: Dict<User>
    var messages: Dict<Message>

    /** The store's invariant: well-formed dicts keyed by id, every stored
        channel's category is null or stored, every stored message's author
        and channel are stored. */
    predicate Valid()
      reads this
    {
      && Dicts.Valid(categories) && Dicts.Valid(channels) && Dicts.Valid(users) && Dicts.Valid(messages)
      && KeyedById(categories, (c: Category) => c.id)
      && KeyedById(channels, (c: Channel) => c.id)
      && KeyedById(users, (u: User) => u.id)
      && KeyedById(messages, (m: Message) => m.id)
      && (forall k :: k in channels.entries ==>
            channels.entries[k].categoryId.None? || channels.entries[k].categoryId.value in categories.entries)
      && (forall k :: k in messages.entries ==>
            messages.entries[k].authorId in users.entries && messages.entries[k].channelId in channels.entries)
    }

    constructor ()
      ensures Valid()
      ensures categories == Empty() && channels == Empty() && users == Empty() && messages == Empty()
    {
      categories, channels, users, messages := Empty(), Empty(), Empty(), Empty();
    }

    /** Upsert: the category replaces any earlier one with its id. */
    method SaveCategory(category: Category)
      requires Valid()
      modifies this
      ensures Valid()
      ensures categories == Put(old(categories), category.id, category)
      ensures channels == old(channels) && users == old(users) && messages == old(messages)
    {
      categories := Put(categories, category.id, category);
    }

    /** Fails with a StateError, writing nothing, when the channel names a
        category that is not stored; otherwise upserts the channel. */
    method SaveChannel(channel: Channel) returns (o: Outcome<Error>)
      requires Valid()
      modifies this
      ensures Valid()
      ensures o.Fail? <==> channel.categoryId.Some? && channel.categoryId.value !in categories.entries
      ensures o.Fail? ==> o.error == Raise(StateError, "Category " + IntToString(channel.categoryId.value)
                                     + " not found for channel " + IntToString(channel.id))
      ensures o.Fail? ==> channels == old(channels)
      ensures o.Pass? ==> channels == Put(old(channels), channel.id, channel)
      ensures categories == old(categories) && users == old(users) && messages == old(messages)
    {
      if channel.categoryId.Some? && channel.categoryId.value !in categories.entries {
        return Fail(Raise(StateError, "Category " + IntToString(channel.categoryId.value)
                          + " not found for channel " + IntToString(channel.id)));
      }
      channels := Put(channels, channel.id, channel);
      return Pass;
    }

    method SaveUser(user: User)
      requires Valid()
      modifies this
      ensures Valid()
      ensures users == Put(old(users), user.id, user)
      ensures categories == old(categories) && channels == old(channels) && messages == old(messages)
    {
      users := Put(users, user.id, user);
    }

    /** The author is checked before the channel; either failure writes
        nothing. */
    method SaveMessage(message: Message) returns (o: Outcome<Error>)
      requires Valid()
      modifies this
      ensures Valid()
      ensures o.Fail? <==> message.authorId !in users.entries || message.channelId !in channels.entries
      ensures message.authorId !in users.entries ==>
        o == Fail(Raise(StateError, "User " + IntToString(message.authorId) + " not found for message " + IntToString(message.id)))
      ensures message.authorId in users.entries && message.channelId !in channels.entries ==>
        o == Fail(Raise(StateError, "Channel " + IntToString(message.channelId) + " not found for message " + IntToString(message.id)))
      ensures o.Fail? ==> messages == old(messages)
      ensures o.Pass? ==> messages == Put(old(messages), message.id, message)
      ensures categories == old(categories) && channels == old(channels) && users == old(users)
    {
      if message.authorId !in users.entries {
        return Fail(Raise(StateError, "User " + IntToString(message.authorId) + " not found for message " + IntToString(message.id)));
      }
      if message.channelId !in channels.entries {
        return Fail(Raise(StateError, "Channel " + IntToString(message.channelId) + " not found for message " + IntToString(message.id)));
      }
      messages := Put(messages, message.id, message);
      return Pass;
    }

    function GetCategory(id: int): (r: Option<Category>)
      reads this
      ensures r.Some? <==> id in categories.entries
      ensures r.Some? ==> r.value == categories.entries[id]
    {
      Get(categories, id)
    }

    function GetChannel(id: int): (r: Option<Channel>)
      reads this
      ensures r.Some? <==> id in channels.entries
      ensures r.Some? ==> r.value == channels.entries[id]
    {
      Get(channels, id)
    }

    function GetUser(id: int): (r: Option<User>)
      reads this
      ensures r.Some? <==> id in users.entries
      ensures r.Some? ==> r.value == users.entries[id]
    {
      Get(users, id)
    }

    /** The stored messages of one channel, in insertion order. */
    function ChannelMessages(channelId: int): (r: seq<Message>)
      reads this
      requires Valid()
      ensures forall m :: m in r <==> m in Values(messages) && m.channelId == channelId
    {
      Filter(Values(messages), (m: Message) => m.channelId == channelId)
    }

    /** The channel's messages in ascending (timestamp, id) order; with a
        positive limit only the latest `limit` of them, with a limit of zero
        or less all of them. */
    function GetMessages(channelId: int, limit: int): (r: seq<Message>)
      reads this
      requires Valid()
      ensures Sorted(r, MessageKey)
      ensures forall m :: m in r ==> m.channelId == channelId && m.id in messages.entries && messages.entries[m.id] == m
      ensures multiset(r) <= multiset(ChannelMessages(channelId))
      ensures limit <= 0 ==> multiset(r) == multiset(ChannelMessages(channelId))
      ensures limit > 0 ==> |r| == Min(limit, |ChannelMessages(channelId)|)
      ensures forall x, y :: x in r && y in multiset(ChannelMessages(channelId)) - multiset(r) ==>
        Le(MessageKey(y), MessageKey(x))
    {
      var r := Recent(ChannelMessages(channelId), MessageKey, limit);
      StoredMessages(channelId, r);
      r
    }

    lemma StoredMessages(channelId: int, s: seq<Message>)
      requires Valid()
      requires multiset(s) <= multiset(ChannelMessages(channelId))
      ensures forall m :: m in s ==> m.channelId == channelId && m.id in messages.entries && messages.entries[m.id] == m
    {
      forall m | m in s
        ensures m.channelId == channelId && m.id in messages.entries && messages.entries[m.id] == m
      {
        assert m in multiset(ChannelMessages(channelId));
        ValuesAreEntries(messages, m);
      }
    }

    /** The history query has a single possible answer: any arrangement of
        the channel's messages in ascending (timestamp, id) order is the one
        it returns, because stored messages have distinct ids. */
    lemma GetMessagesUnique(channelId: int, s: seq<Message>)
      requires Valid()
      requires Sorted(s, MessageKey)
      requires multiset(s) == multiset(ChannelMessages(channelId))
      ensures GetMessages(channelId, 0) == s
    {
      var r := GetMessages(channelId, 0);
      StoredMessages(channelId, s);
      assert KeysDistinct(multiset(r), MessageKey);
      SortedUnique(r, s, MessageKey);
    }
  }

  /** Saving a user twice keeps the second payload under the id, and the id
      keeps its place in iteration order. */
  method ResaveUser(store: MemoryState, first: User, second: User)
    requires store.Valid() && first.id == second.id
    modifies store
    ensures store.Valid() && store.GetUser(first.id) == Some(second)
    ensures first.id in old(store.users.entries) ==> store.users.keys == old(store.users.keys)
  {
    store.SaveUser(first);
    store.SaveUser(second);
  }
}
