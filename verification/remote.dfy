/** The remote workspace as the synchroniser sees it: the guild's channel
    list, whose items are categories, text channels or channels of some other
    kind, and the two creation calls the reconciler and the channel manager
    make. Every creation call is recorded in a ghost log, so that a property
    such as "a second run makes no create calls" can be stated. A call to
    the remote service may fail for reasons the model does not see; that is
    a nondeterministic choice. */
module Remote {
  import opened Outcomes
  import opened Exceptions

  /** `GuildCategory`, `GuildText`, or any other channel class. */
  datatype Kind = CategoryKind | TextKind | OtherKind

  /** One entry of `guild.channels`: the attributes discovery reads. A
      missing attribute is None. */
  datatype Item = Item(kind: Kind, id: int, name: string, position: Option<int>,
                       parentId: Option<int>, topic: Option<string>)

  /** A creation request sent to the remote service. */
  datatype Call =
    | CategoryCreated(name: string)
    | TextChannelCreated(name: string, parentId: Option<int>, topic: Option<string>)

  predicate IsCategoryItem(item: Item)
  {
    item.kind == CategoryKind
  }

  predicate IsTextItem(item: Item)
  {
    item.kind == TextKind
  }

  /** `int(getattr(item, "position", 0) or 0)`: a missing position counts as
      0 (a present 0 is 0 either way). */
  function PositionOrZero(item: Item): (p: int)
    ensures item.position.None? ==> p == 0
    ensures item.position.Some? ==> p == item.position.value
  {
    match item.position
    case None => 0
    case Some(p) => p
  }

  /** `int(parent_id) if parent_id else None`: a missing parent and the
      falsy id 0 both mean "no parent". */
  function ParentOrNone(item: Item): (r: Option<int>)
    ensures r.Some? <==> item.parentId.Some? && item.parentId.value != 0
    ensures r.Some? ==> r.value == item.parentId.value
  {
    if item.parentId.Some? && item.parentId.value != 0 then item.parentId else None
  }

  class Guild {
    /** The guild's channel list, in the order the client reports it. */
    var channels: seq<Item>
    /** The id the next created channel gets. */
    var nextId: int
    /** Every creation call made so far, successful or not. */
    ghost var calls: seq<Call>

    constructor (channels: seq<Item>, nextId: int)
      ensures this.channels == channels && this.nextId == nextId && calls == []
    {
      this.channels := channels;
      this.nextId := nextId;
      calls := [];
    }

    /** `guild.create_category(name=name)`: the call is logged; it either
        fails or appends a new category with a fresh id and the requested
        name. */
    method CreateCategory(name: string) returns (r: Result<Item, Error>)
      modifies this
      ensures calls == old(calls) + [CategoryCreated(name)]
      ensures r.Ok? ==> r.value == Item(CategoryKind, old(nextId), name, None, None, None)
                        && channels == old(channels) + [r.value] && nextId == old(nextId) + 1
      ensures r.Err? ==> r.error.kind == RemoteError && channels == old(channels) && nextId == old(nextId)
    {
      calls := calls + [CategoryCreated(name)];
      if * {
        return Err(Raise(RemoteError, "create_category failed"));
      }
      var item := Item(CategoryKind, nextId, name, None, None, None);
      channels := channels + [item];
      nextId := nextId + 1;
      return Ok(item);
    }

    /** `guild.create_text_channel(name=..., parent_id=..., topic=...)`:
        as for categories, with the parent and topic passed through. */
    method CreateTextChannel(name: string, parentId: Option<int>, topic: Option<string>) returns (r: Result<Item, Error>)
      modifies this
      ensures calls == old(calls) + [TextChannelCreated(name, parentId, topic)]
      ensures r.Ok? ==> r.value == Item(TextKind, old(nextId), name, None, parentId, topic)
                        && channels == old(channels) + [r.value] && nextId == old(nextId) + 1
      ensures r.Err? ==> r.error.kind == RemoteError && channels == old(channels) && nextId == old(nextId)
    {
      calls := calls + [TextChannelCreated(name, parentId, topic)];
      if * {
        return Err(Raise(RemoteError, "create_text_channel failed"));
      }
      var item := Item(TextKind, nextId, name, None, parentId, topic);
      channels := channels + [item];
      nextId := nextId + 1;
      return Ok(item);
    }
  }
}
