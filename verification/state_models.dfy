/** The runtime records kept by the in-memory store (the third-generation
    `state` package). Creation timestamps that default to the wall clock are
    left out; message timestamps are modelled by integers. Construction
    validates every field and fails with a ValueError when one is out of
    range; unknown keyword fields are ignored, which a constructor with a
    fixed parameter list gives for free. */
module StateModels {
  import opened Outcomes
  import opened Exceptions
  import opened Types

  datatype Category = Category(id: int, name: string, serverId: int, position: int := 0)

  datatype Channel = Channel(
    id: int, name: string, serverId: int,
    categoryId: Option<int> := None, position: int := 0, topic: Option<string> := None)

  datatype User = User(id: int, username: string, discriminator: string := "0", bot: bool := false)

  datatype Message = Message(
    id: int, content: string, authorId: int, channelId: int, timestamp: int,
    editedAt: Option<int> := None)

  predicate ValidCategory(c: Category)
  {
    IsSnowflake(c.id) && IsCategoryName(c.name) && IsSnowflake(c.serverId)
  }

  /** The category_id field validator: null or a positive snowflake. */
  predicate ValidCategoryId(categoryId: Option<int>)
  {
    categoryId.None? || IsSnowflake(categoryId.value)
  }

  predicate ValidChannel(c: Channel)
  {
    && IsSnowflake(c.id) && IsChannelName(c.name) && IsSnowflake(c.serverId)
    && ValidCategoryId(c.categoryId)
    && (c.topic.None? || |c.topic.value| <= 1024)
  }

  predicate ValidUser(u: User)
  {
    IsSnowflake(u.id) && IsUsername(u.username)
  }

  predicate ValidMessage(m: Message)
  {
    && IsSnowflake(m.id) && IsMessageContent(m.content)
    && IsSnowflake(m.authorId) && IsSnowflake(m.channelId)
  }

  function Invalid(model: string): Error
  {
    Raise(ValueError, "validation error for " + model)
  }

  function NewCategory(id: int, name: string, serverId: int, position: int := 0): (r: Result<Category, Error>)
    ensures r.Ok? <==> IsSnowflake(id) && 1 <= |name| <= 100 && IsSnowflake(serverId)
    ensures r.Ok? ==> r.value.id == id && r.value.name == name && r.value.serverId == serverId && r.value.position == position
    ensures r.Ok? ==> ValidCategory(r.value)
    ensures r.Err? ==> r.error.kind == ValueError
  {
    var c := Category(id, name, serverId, position);
    if ValidCategory(c) then Ok(c) else Err(Invalid("Category"))
  }

  function NewChannel(id: int, name: string, serverId: int, categoryId: Option<int> := None,
                      position: int := 0, topic: Option<string> := None): (r: Result<Channel, Error>)
    ensures r.Ok? <==> && IsSnowflake(id) && ValidateChannelName(name).Ok? && IsSnowflake(serverId)
                       && (categoryId.None? || 0 < categoryId.value <= MaxSnowflake)
                       && (topic.None? || |topic.value| <= 1024)
    ensures r.Ok? ==> r.value == Channel(id, name, serverId, categoryId, position, topic) && ValidChannel(r.value)
    ensures r.Err? ==> r.error.kind == ValueError
  {
    var c := Channel(id, name, serverId, categoryId, position, topic);
    if ValidChannel(c) then Ok(c) else Err(Invalid("Channel"))
  }

  function NewUser(id: int, username: string, discriminator: string := "0", bot: bool := false): (r: Result<User, Error>)
    ensures r.Ok? <==> IsSnowflake(id) && 2 <= |username| <= 32
    ensures r.Ok? ==> r.value == User(id, username, discriminator, bot) && ValidUser(r.value)
    ensures r.Err? ==> r.error.kind == ValueError
  {
    var u := User(id, username, discriminator, bot);
    if ValidUser(u) then Ok(u) else Err(Invalid("User"))
  }

  function NewMessage(id: int, content: string, authorId: int, channelId: int, timestamp: int,
                      editedAt: Option<int> := None): (r: Result<Message, Error>)
    ensures r.Ok? <==> IsSnowflake(id) && |content| <= 2000 && IsSnowflake(authorId) && IsSnowflake(channelId)
    ensures r.Ok? ==> r.value == Message(id, content, authorId, channelId, timestamp, editedAt) && ValidMessage(r.value)
    ensures r.Err? ==> r.error.kind == ValueError
  {
    var m := Message(id, content, authorId, channelId, timestamp, editedAt);
    if ValidMessage(m) then Ok(m) else Err(Invalid("Message"))
  }

  /** Left-out optional fields take their declared defaults: position 0, no
      category and no topic, discriminator "0", not a bot, never edited. */
  lemma Defaults(id: int, serverId: int, ts: int)
    requires IsSnowflake(id) && IsSnowflake(serverId)
    ensures NewCategory(id, "c", serverId).Ok? && NewCategory(id, "c", serverId).value.position == 0
    ensures var ch := NewChannel(id, "general", serverId);
      ch.Ok? && ch.value.categoryId.None? && ch.value.topic.None? && ch.value.position == 0
    ensures var u := NewUser(id, "someone");
      u.Ok? && u.value.discriminator == "0" && !u.value.bot
    ensures var m := NewMessage(id, "", id, id, ts); m.Ok? && m.value.editedAt.None?
  {
    assert ValidateChannelName("general").Ok? by {
      assert IsChannelName("general");
    }
  }
}
