/** The second-generation registry: the same name lookups and category
    listing over the second-generation store, failing with
    EntityNotFoundError. Nothing here writes to the store. */
module Registry {
  import opened Outcomes
  import opened Exceptions
  import opened Dicts
  import State

  type Category = State.Category
  type Channel = State.Channel

  /** The store a registry was built over: the in-memory store, or some
      other implementation of the store protocol. */
  datatype StoreRef = Memory(state: State.MemoryState) | Other

  predicate Matches(name: string, serverId: int, cname: string, cserver: int)
  {
    cserver == serverId && cname == name
  }

  class EntityRegistry {
    const store: StoreRef

    constructor (store: StoreRef)
      ensures this.store == store
    {
      this.store := store;
    }

    /** The store's categories in iteration order (none for another store). */
    function Categories(): seq<Category>
      reads if store.Memory? then {store.state} else {}
      requires store.Memory? ==> store.state.Valid()
    {
      if store.Memory? then Values(store.state.categories) else []
    }

    function Channels(): seq<Channel>
      reads if store.Memory? then {store.state} else {}
      requires store.Memory? ==> store.state.Valid()
    {
      if store.Memory? then Values(store.state.channels) else []
    }

    /** The first category, in iteration order, with that server and name;
        EntityNotFoundError when there is none. */
    function GetCategoryByName(name: string, serverId: int): (r: Result<Category, Error>)
      reads if store.Memory? then {store.state} else {}
      requires store.Memory? ==> store.state.Valid()
      ensures store.Other? ==> r.Err?
      ensures r.Err? <==> forall i :: 0 <= i < |Categories()| ==>
        !Matches(name, serverId, Categories()[i].name, Categories()[i].serverId)
      ensures r.Ok? ==>
        exists i :: 0 <= i < |Categories()| && Categories()[i] == r.value
          && Matches(name, serverId, r.value.name, r.value.serverId)
          && forall j :: 0 <= j < i ==> !Matches(name, serverId, Categories()[j].name, Categories()[j].serverId)
      ensures r.Err? ==> r.error == Raise(EntityNotFoundError, "Category '" + name + "' not found")
    {
      match FirstWhere(Categories(), (c: Category) => Matches(name, serverId, c.name, c.serverId))
      case Some(c) => Ok(c)
      case None => Err(Raise(EntityNotFoundError, "Category '" + name + "' not found"))
    }

    /** The same first-match rule over the channels. */
    function GetChannelByName(name: string, serverId: int): (r: Result<Channel, Error>)
      reads if store.Memory? then {store.state} else {}
      requires store.Memory? ==> store.state.Valid()
      ensures store.Other? ==> r.Err?
      ensures r.Err? <==> forall i :: 0 <= i < |Channels()| ==>
        !Matches(name, serverId, Channels()[i].name, Channels()[i].serverId)
      ensures r.Ok? ==>
        exists i :: 0 <= i < |Channels()| && Channels()[i] == r.value
          && Matches(name, serverId, r.value.name, r.value.serverId)
          && forall j :: 0 <= j < i ==> !Matches(name, serverId, Channels()[j].name, Channels()[j].serverId)
      ensures r.Err? ==> r.error == Raise(EntityNotFoundError, "Channel '" + name + "' not found")
    {
      match FirstWhere(Channels(), (c: Channel) => Matches(name, serverId, c.name, c.serverId))
      case Some(c) => Ok(c)
      case None => Err(Raise(EntityNotFoundError, "Channel '" + name + "' not found"))
    }

    /** Exactly the stored channels under that category, in iteration order;
        never fails. */
    function GetChannelsInCategory(categoryId: int): (r: seq<Channel>)
      reads if store.Memory? then {store.state} else {}
      requires store.Memory? ==> store.state.Valid()
      ensures store.Other? ==> r == []
      ensures forall c :: c in r <==> c in Channels() && c.categoryId == Some(categoryId)
      ensures r == Filter(Channels(), (c: Channel) => c.categoryId == Some(categoryId))
    {
      Filter(Channels(), (c: Channel) => c.categoryId == Some(categoryId))
    }
  }
}
