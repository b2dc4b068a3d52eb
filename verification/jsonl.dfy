/** The first-generation append-only backup log (`JSONLWriter`): every
    write appends one `{type, data}` line, and any failure of the file write
    is raised as a JSONLError. The file system is not modelled: whether a
    write fails is a nondeterministic choice, and each attempt is recorded
    in a ghost log so that callers can state which writes they tried. */
module Jsonl {
  import opened Outcomes
  import opened Exceptions
  import opened ModelsCategory
  import opened ModelsChannel
  import opened ModelsUser
  import opened ModelsMessage

  /** The entity serialised on a line. */
  datatype Entity =
    | CategoryEntity(category: DiscordCategory)
    | ChannelEntity(channel: DiscordTextChannel)
    | UserEntity(user: DiscordUser)
    | MessageEntity(message: DiscordMessage)

  /** One line of the log: the type tag and the entity. */
  datatype Entry = Entry(entityType: string, data: Entity)

  function CategoryEntry(c: DiscordCategory): Entry { Entry("category", CategoryEntity(c)) }

  function ChannelEntry(c: DiscordTextChannel): Entry { Entry("channel", ChannelEntity(c)) }

  function UserEntry(u: DiscordUser): Entry { Entry("user", UserEntity(u)) }

  function MessageEntry(m: DiscordMessage): Entry { Entry("message", MessageEntity(m)) }

  class JsonlWriter {
    const filepath: string
    /** The lines in the file, in write order. */
    var lines: seq<Entry>
    /** Every write attempted, successful or not. */
    ghost var attempts: seq<Entry>

    constructor (filepath: string)
      ensures this.filepath == filepath && lines == [] && attempts == []
    {
      this.filepath := filepath;
      lines := [];
      attempts := [];
    }

    /** `write`: either the line is appended, or the write fails with
        "Failed to write <type> to JSONL" and the file is unchanged. */
    method Write(entity: Entity, entityType: string) returns (o: Outcome<Error>)
      modifies this
      ensures attempts == old(attempts) + [Entry(entityType, entity)]
      ensures o.Pass? ==> lines == old(lines) + [Entry(entityType, entity)]
      ensures o.Fail? ==> lines == old(lines)
                          && o.error.kind == JSONLError && o.error.message == "Failed to write " + entityType + " to JSONL"
    {
      attempts := attempts + [Entry(entityType, entity)];
      if * {
        return Fail(Raise(JSONLError, "Failed to write " + entityType + " to JSONL"));
      }
      lines := lines + [Entry(entityType, entity)];
      return Pass;
    }

    method WriteCategory(c: DiscordCategory) returns (o: Outcome<Error>)
      modifies this
      ensures attempts == old(attempts) + [CategoryEntry(c)]
      ensures o.Pass? ==> lines == old(lines) + [CategoryEntry(c)]
      ensures o.Fail? ==> lines == old(lines) && o.error.kind == JSONLError
    {
      o := Write(CategoryEntity(c), "category");
    }

    method WriteChannel(c: DiscordTextChannel) returns (o: Outcome<Error>)
      modifies this
      ensures attempts == old(attempts) + [ChannelEntry(c)]
      ensures o.Pass? ==> lines == old(lines) + [ChannelEntry(c)]
      ensures o.Fail? ==> lines == old(lines) && o.error.kind == JSONLError
    {
      o := Write(ChannelEntity(c), "channel");
    }

    method WriteUser(u: DiscordUser) returns (o: Outcome<Error>)
      modifies this
      ensures attempts == old(attempts) + [UserEntry(u)]
      ensures o.Pass? ==> lines == old(lines) + [UserEntry(u)]
      ensures o.Fail? ==> lines == old(lines) && o.error.kind == JSONLError
    {
      o := Write(UserEntity(u), "user");
    }

    method WriteMessage(m: DiscordMessage) returns (o: Outcome<Error>)
      modifies this
      ensures attempts == old(attempts) + [MessageEntry(m)]
      ensures o.Pass? ==> lines == old(lines) + [MessageEntry(m)]
      ensures o.Fail? ==> lines == old(lines) && o.error.kind == JSONLError
    {
      o := Write(MessageEntity(m), "message");
    }
  }
}
