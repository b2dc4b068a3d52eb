/** Name lookups over the third-generation store. Only the in-memory store
    can be searched; for any other store the name lookups always fail and
    the listing is empty. Nothing here writes to the store. */
module StateRegistry {
  import opened Outcomes
  import opened Exceptions
  import opened Dicts
  import opened StateModels
  import StateMemory

  /** The store a registry was built over: the in-memory store, or some
      other implementation of the store protocol. */
  datatype StoreRef = Memory(state: StateMemory.MemoryState) | Other

  predicate Matches(name: string, serverId: int, cname: string, cserver: int)
  {
    cname == name && cserver == serverId
  }

  class EntityRegistry {
    const store: StoreRef

    constructor (store: StoreRef)
      ensures this.store == store
    {
      this.store := store;
    }

    /** The store's categories in iteration order (none for another store). */
    function Categories(): seq<Category>
      reads if store.Memory? then {store.state} else {}
      requires store.Memory? ==> store.state.Valid()
    {
      if store.Memory? then Values(store.state.categories) else []
    }

    function Channels(): seq<Channel>
      reads if store.Memory? then {store.state} else {}
      requires store.Memory? ==> store.state.Valid()
    {
      if store.Memory? then Values(store.state.channels) else []
    }

    /** The first category, in iteration order, with that name and server;
        CategoryNotFoundError when there is none. */
    function GetCategoryByName(name: string, serverId: int): (r: Result<Category, Error>)
      reads if store.Memory? then {store.state} else {}
      requires store.Memory? ==> store.state.Valid()
      ensures store.Other? ==> r.Err?
      ensures r.Err? <==> forall i :: 0 <= i < |Categories()| ==>
        !Matches(name, serverId, Categories()[i].name, Categories()[i].serverId)
      ensures r.Ok? ==>
        exists i :: 0 <= i < |Categories()| && Categories()[i] == r.value
          && Matches(name, serverId, r.value.name, r.value.serverId)
          && forall j :: 0 <= j < i ==> !Matches(name, serverId, Categories()[j].name, Categories()[j].serverId)
      ensures r.Err? ==> r.error == Raise(CategoryNotFoundError, "Category '" + name + "' not found in server " + Text.IntToString(serverId))
    {
      match FirstWhere(Categories(), (c: Category) => Matches(name, serverId, c.name, c.serverId))
      case Some(c) => Ok(c)
      case None => Err(Raise(CategoryNotFoundError, "Category '" + name + "' not found in server " + Text.IntToString(serverId)))
    }

    /** The same first-match rule over the channels; ChannelNotFoundError
        when there is none. */
    function GetChannelByName(name: string, serverId: int): (r: Result<Channel, Error>)
      reads if store.Memory? then {store.state} else {}
      requires store.Memory? ==> store.state.Valid()
      ensures store.Other? ==> r.Err?
      ensures r.Err? <==> forall i :: 0 <= i < |Channels()| ==>
        !Matches(name, serverId, Channels()[i].name, Channels()[i].serverId)
      ensures r.Ok? ==>
        exists i :: 0 <= i < |Channels()| && Channels()[i] == r.value
          && Matches(name, serverId, r.value.name, r.value.serverId)
          && forall j :: 0 <= j < i ==> !Matches(name, serverId, Channels()[j].name, Channels()[j].serverId)
      ensures r.Err? ==> r.error == Raise(ChannelNotFoundError, "Channel '" + name + "' not found in server " + Text.IntToString(serverId))
    {
      match FirstWhere(Channels(), (c: Channel) => Matches(name, serverId, c.name, c.serverId))
      case Some(c) => Ok(c)
      case None => Err(Raise(ChannelNotFoundError, "Channel '" + name + "' not found in server " + Text.IntToString(serverId)))
    }

    /** Exactly the stored channels under that category, in iteration order;
        never fails. */
    function GetChannelsInCategory(categoryId: int): (r: seq<Channel>)
      reads if store.Memory? then {store.state} else {}
      requires store.Memory? ==> store.state.Valid()
      ensures store.Other? ==> r == []
      ensures forall c :: c in r <==> c in Channels() && c.categoryId == Some(categoryId)
      ensures r == Filter(Channels(), (c: Channel) => c.categoryId == Some(categoryId))
    {
      Filter(Channels(), (c: Channel) => c.categoryId == Some(categoryId))
    }
  }

  /** Saving a channel that is new to the store adds it at the end of its
      category's listing and leaves every other category's listing as it
      was. */
  lemma {:induction false} ListingAfterNewChannel(channels: Dict<Channel>, ch: Channel, categoryId: int)
    requires Dicts.Valid(channels) && ch.id !in channels.entries
    ensures var p := (c: Channel) => c.categoryId == Some(categoryId);
      Filter(Values(Put(channels, ch.id, ch)), p)
        == Filter(Values(channels), p) + (if ch.categoryId == Some(categoryId) then [ch] else [])
  {
    var p := (c: Channel) => c.categoryId == Some(categoryId);
    PutValues(channels, ch.id, ch);
    FilterAppend(Values(channels), [ch], p);
    assert [ch][1..] == [];
  }
}
