/** Discovery over the third-generation store: the guild's categories and
    text channels are turned into store records and saved one by one, in the
    guild's order. There is no per-item skip: the first item that cannot be
    built or saved aborts the batch, and what was saved before it stays. */
module EngineDiscovery {
  import opened Outcomes
  import opened Text
  import opened Exceptions
  import opened Dicts
  import opened Batches
  import opened Remote
  import opened StateModels
  import StateMemory

  /** The record built for a category item. */
  function CategoryRecord(item: Item, serverId: int): Category
  {
    Category(item.id, item.name, serverId, PositionOrZero(item))
  }

  /** `str(getattr(item, "topic", "") or "")`: a missing topic becomes the
      empty topic, never null. */
  function TopicOrEmpty(item: Item): (t: string)
    ensures item.topic.Some? ==> t == item.topic.value
    ensures item.topic.None? ==> t == ""
  {
    if item.topic.Some? then item.topic.value else ""
  }

  /** The record built for a text-channel item. */
  function ChannelRecord(item: Item, serverId: int): Channel
  {
    Channel(item.id, item.name, serverId, ParentOrNone(item), PositionOrZero(item), Some(TopicOrEmpty(item)))
  }

  function CategoryRecords(items: seq<Item>, serverId: int): (cs: seq<Category>)
    ensures |cs| == |items| && forall i :: 0 <= i < |items| ==> cs[i] == CategoryRecord(items[i], serverId)
  {
    seq(|items|, i requires 0 <= i < |items| => CategoryRecord(items[i], serverId))
  }

  function ChannelRecords(items: seq<Item>, serverId: int): (cs: seq<Channel>)
    ensures |cs| == |items| && forall i :: 0 <= i < |items| ==> cs[i] == ChannelRecord(items[i], serverId)
  {
    seq(|items|, i requires 0 <= i < |items| => ChannelRecord(items[i], serverId))
  }

  /** One iteration of the category loop: other kinds contribute nothing; a
      category item contributes its record, or the validation error. Saving
      a category never fails. */
  function CategoryStep(item: Item, serverId: int): Result<seq<Category>, Error>
  {
    if !IsCategoryItem(item) then Ok([])
    else match NewCategory(item.id, item.name, serverId, PositionOrZero(item))
      case Ok(c) => Ok([c])
      case Err(e) => Err(e)
  }

  /** The error the store raises for a channel under an unknown category. */
  function UnknownCategory(c: Channel): Error
    requires c.categoryId.Some?
  {
    Raise(StateError, "Category " + IntToString(c.categoryId.value) + " not found for channel " + IntToString(c.id))
  }

  /** One iteration of the channel loop, against the store's categories
      (the loop never changes them): other kinds contribute nothing; a text
      item contributes its record, the validation error, or the store's
      error for an unknown parent. */
  function ChannelStep(item: Item, serverId: int, categories: map<int, Category>): Result<seq<Channel>, Error>
  {
    if !IsTextItem(item) then Ok([])
    else match NewChannel(item.id, item.name, serverId, ParentOrNone(item), PositionOrZero(item), Some(TopicOrEmpty(item)))
      case Err(e) => Err(e)
      case Ok(c) =>
        if c.categoryId.Some? && c.categoryId.value !in categories then Err(UnknownCategory(c))
        else Ok([c])
  }

  function CategorySteps(items: seq<Item>, serverId: int): (rs: seq<Result<seq<Category>, Error>>)
    ensures |rs| == |items| && forall i :: 0 <= i < |items| ==> rs[i] == CategoryStep(items[i], serverId)
  {
    seq(|items|, i requires 0 <= i < |items| => CategoryStep(items[i], serverId))
  }

  function ChannelSteps(items: seq<Item>, serverId: int, categories: map<int, Category>): (rs: seq<Result<seq<Channel>, Error>>)
    ensures |rs| == |items| && forall i :: 0 <= i < |items| ==> rs[i] == ChannelStep(items[i], serverId, categories)
  {
    seq(|items|, i requires 0 <= i < |items| => ChannelStep(items[i], serverId, categories))
  }

  /** The categories the loop collects, or the error that stopped it. */
  function DiscoveredCategories(items: seq<Item>, serverId: int): Result<seq<Category>, Error>
  {
    Joined(CategorySteps(items, serverId))
  }

  /** The channels the loop collects, or the error that stopped it. */
  function DiscoveredChannels(items: seq<Item>, serverId: int, categories: map<int, Category>): Result<seq<Channel>, Error>
  {
    Joined(ChannelSteps(items, serverId, categories))
  }

  /** The record ids, as the store keys them. */
  function CategoryId(c: Category): int { c.id }

  function ChannelId(c: Channel): int { c.id }

  class DiscoveryEngine {
    const store: StateMemory.MemoryState
    const serverId: int

    constructor (store: StateMemory.MemoryState, serverId: int)
      ensures this.store == store && this.serverId == serverId
    {
      this.store := store;
      this.serverId := serverId;
    }

    /** `discover_categories`: the categories collected, or
        DiscordAPIError("Failed to discover categories") wrapping the first
        failure; every category collected before the failure has been saved,
        and nothing but the category map changes. */
    method DiscoverCategories(guild: Guild) returns (r: Result<seq<Category>, Error>)
      requires store.Valid()
      modifies store
      ensures store.Valid()
      ensures r == Wrapped(DiscoveredCategories(guild.channels, serverId), "Failed to discover categories")
      ensures r.Ok? ==> store.categories == PutAll(old(store.categories), r.value, CategoryId)
      ensures r.Err? ==> exists n :: (0 <= n < |guild.channels|
                && Joined(CategorySteps(guild.channels, serverId)[..n]).Ok?
                && CategorySteps(guild.channels, serverId)[n].Err?
                && store.categories == PutAll(old(store.categories), Joined(CategorySteps(guild.channels, serverId)[..n]).value, CategoryId))
      ensures store.channels == old(store.channels) && store.users == old(store.users)
      ensures store.messages == old(store.messages)
    {
      var items := guild.channels;
      ghost var rs := CategorySteps(items, serverId);
      var categories := [];
      for i := 0 to |items|
        invariant store.Valid()
        invariant Joined(rs[..i]) == Ok(categories)
        invariant store.categories == PutAll(old(store.categories), categories, CategoryId)
        invariant store.channels == old(store.channels) && store.users == old(store.users)
        invariant store.messages == old(store.messages)
      {
        JoinedStep(rs, i);
        var item := items[i];
        if item.kind == CategoryKind {
          var category := NewCategory(item.id, item.name, serverId, PositionOrZero(item));
          if category.Err? {
            JoinedFailsFrom(rs, i + 1);
            return Err(Raise(DiscordAPIError, "Failed to discover categories", Some(category.error)));
          }
          store.SaveCategory(category.value);
          PutAllAppend(old(store.categories), categories, category.value, CategoryId);
          categories := categories + [category.value];
        } else {
          assert categories + [] == categories;
        }
      }
      assert rs[..|items|] == rs;
      return Ok(categories);
    }

    /** `discover_channels`: the text channels collected, or
        DiscordAPIError("Failed to discover channels") wrapping the first
        failure, which may be the store's refusal of an unknown parent;
        every channel collected before the failure has been saved. */
    method DiscoverChannels(guild: Guild) returns (r: Result<seq<Channel>, Error>)
      requires store.Valid()
      modifies store
      ensures store.Valid()
      ensures r == Wrapped(DiscoveredChannels(guild.channels, serverId, old(store.categories.entries)), "Failed to discover channels")
      ensures r.Ok? ==> store.channels == PutAll(old(store.channels), r.value, ChannelId)
      ensures r.Err? ==> exists n :: (0 <= n < |guild.channels|
                && Joined(ChannelSteps(guild.channels, serverId, old(store.categories.entries))[..n]).Ok?
                && ChannelSteps(guild.channels, serverId, old(store.categories.entries))[n].Err?
                && store.channels == PutAll(old(store.channels),
                     Joined(ChannelSteps(guild.channels, serverId, old(store.categories.entries))[..n]).value, ChannelId))
      ensures store.categories == old(store.categories) && store.users == old(store.users)
      ensures store.messages == old(store.messages)
    {
      var items := guild.channels;
      ghost var rs := ChannelSteps(items, serverId, store.categories.entries);
      var channels := [];
      for i := 0 to |items|
        invariant store.Valid()
        invariant Joined(rs[..i]) == Ok(channels)
        invariant store.channels == PutAll(old(store.channels), channels, ChannelId)
        invariant store.categories == old(store.categories) && store.users == old(store.users)
        invariant store.messages == old(store.messages)
      {
        JoinedStep(rs, i);
        var item := items[i];
        if item.kind == TextKind {
          var channel := NewChannel(item.id, item.name, serverId, ParentOrNone(item), PositionOrZero(item), Some(TopicOrEmpty(item)));
          if channel.Err? {
            JoinedFailsFrom(rs, i + 1);
            return Err(Raise(DiscordAPIError, "Failed to discover channels", Some(channel.error)));
          }
          var saved := store.SaveChannel(channel.value);
          assert rs[i] == ChannelStep(item, serverId, store.categories.entries);
          if saved.Fail? {
            assert rs[i] == Err(UnknownCategory(channel.value));
            JoinedFailsFrom(rs, i + 1);
            return Err(Raise(DiscordAPIError, "Failed to discover channels", Some(saved.error)));
          }
          PutAllAppend(old(store.channels), channels, channel.value, ChannelId);
          channels := channels + [channel.value];
        } else {
          assert channels + [] == channels;
        }
      }
      assert rs[..|items|] == rs;
      return Ok(channels);
    }
  }

  lemma CategoryRecordsAppend(items: seq<Item>, item: Item, serverId: int)
    ensures CategoryRecords(items + [item], serverId) == CategoryRecords(items, serverId) + [CategoryRecord(item, serverId)]
  {
  }

  lemma CategoryStepsPrefix(items: seq<Item>, serverId: int, n: nat)
    requires n <= |items|
    ensures CategorySteps(items, serverId)[..n] == CategorySteps(items[..n], serverId)
  {
  }

  /** On success the output is the records of the category items, in
      guild order. */
  lemma {:induction false} CategoriesInOrder(items: seq<Item>, serverId: int)
    ensures DiscoveredCategories(items, serverId).Ok? ==>
              DiscoveredCategories(items, serverId).value == CategoryRecords(Filter(items, IsCategoryItem), serverId)
    decreases |items|
  {
    var rs := CategorySteps(items, serverId);
    if items != [] && Joined(rs).Ok? {
      var last := |items| - 1;
      var init := items[..last];
      CategoryStepsPrefix(items, serverId, last);
      JoinedOk(rs);
      JoinedStep(rs, last);
      assert rs[..last + 1] == rs;
      CategoriesInOrder(init, serverId);
      FilterLast(items, IsCategoryItem);
      var before := Filter(init, IsCategoryItem);
      if IsCategoryItem(items[last]) {
        CategoryRecordsAppend(before, items[last], serverId);
      } else {
        assert before + [] == before;
      }
    }
  }

  /** Category discovery succeeds exactly when every category item makes a
      valid record; it then returns exactly the category items' records, in
      guild order, and a failure is a validation error. */
  lemma DiscoveredCategoriesSpec(items: seq<Item>, serverId: int)
    ensures DiscoveredCategories(items, serverId).Ok? <==>
              forall i :: 0 <= i < |items| && IsCategoryItem(items[i]) ==>
                NewCategory(items[i].id, items[i].name, serverId, PositionOrZero(items[i])).Ok?
    ensures DiscoveredCategories(items, serverId).Ok? ==>
              DiscoveredCategories(items, serverId).value == CategoryRecords(Filter(items, IsCategoryItem), serverId)
    ensures DiscoveredCategories(items, serverId).Err? ==> DiscoveredCategories(items, serverId).error.kind == ValueError
  {
    var rs := CategorySteps(items, serverId);
    JoinedOk(rs);
    CategoriesInOrder(items, serverId);
  }

  lemma ChannelRecordsAppend(items: seq<Item>, item: Item, serverId: int)
    ensures ChannelRecords(items + [item], serverId) == ChannelRecords(items, serverId) + [ChannelRecord(item, serverId)]
  {
  }

  lemma ChannelStepsPrefix(items: seq<Item>, serverId: int, categories: map<int, Category>, n: nat)
    requires n <= |items|
    ensures ChannelSteps(items, serverId, categories)[..n] == ChannelSteps(items[..n], serverId, categories)
  {
  }

  lemma {:induction false} ChannelsInOrder(items: seq<Item>, serverId: int, categories: map<int, Category>)
    ensures DiscoveredChannels(items, serverId, categories).Ok? ==>
              DiscoveredChannels(items, serverId, categories).value == ChannelRecords(Filter(items, IsTextItem), serverId)
    decreases |items|
  {
    var rs := ChannelSteps(items, serverId, categories);
    if items != [] && Joined(rs).Ok? {
      var last := |items| - 1;
      var init := items[..last];
      ChannelStepsPrefix(items, serverId, categories, last);
      JoinedOk(rs);
      JoinedStep(rs, last);
      assert rs[..last + 1] == rs;
      ChannelsInOrder(init, serverId, categories);
      FilterLast(items, IsTextItem);
      var before := Filter(init, IsTextItem);
      if IsTextItem(items[last]) {
        ChannelRecordsAppend(before, items[last], serverId);
      } else {
        assert before + [] == before;
      }
    }
  }

  /** Channel discovery returns exactly the text items' records, in guild
      order, each categorized under a stored category or under none, with a
      missing topic turned into "". It fails exactly when some text item
      makes an invalid record or names a parent the store does not hold, and
      the failure is that validation error or the store's StateError. */
  lemma DiscoveredChannelsSpec(items: seq<Item>, serverId: int, categories: map<int, Category>)
    ensures DiscoveredChannels(items, serverId, categories).Ok? <==>
              forall i :: 0 <= i < |items| && IsTextItem(items[i]) ==>
                && StateModels.NewChannel(items[i].id, items[i].name, serverId, ParentOrNone(items[i]),
                                          PositionOrZero(items[i]), Some(TopicOrEmpty(items[i]))).Ok?
                && (ParentOrNone(items[i]).Some? ==> ParentOrNone(items[i]).value in categories)
    ensures DiscoveredChannels(items, serverId, categories).Ok? ==>
              var cs := DiscoveredChannels(items, serverId, categories).value;
              && cs == ChannelRecords(Filter(items, IsTextItem), serverId)
              && forall c :: c in cs ==> c.topic.Some? && (c.categoryId.None? || c.categoryId.value in categories)
    ensures DiscoveredChannels(items, serverId, categories).Err? ==>
              DiscoveredChannels(items, serverId, categories).error.kind in {ValueError, StateError}
  {
    var rs := ChannelSteps(items, serverId, categories);
    JoinedOk(rs);
    ChannelsInOrder(items, serverId, categories);
    var r := DiscoveredChannels(items, serverId, categories);
    if r.Ok? {
      forall c | c in r.value
        ensures c.topic.Some? && (c.categoryId.None? || c.categoryId.value in categories)
      {
        var text := Filter(items, IsTextItem);
        var j :| 0 <= j < |text| && r.value[j] == c;
        assert text[j] in items;
        var i :| 0 <= i < |items| && items[i] == text[j];
        assert rs[i].Ok?;
      }
    }
  }
}
