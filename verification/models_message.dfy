/** The first-generation message record (`DiscordMessage`) and its Discord
    API payload. Timestamps are modelled by integers, and the payload carries
    them as values rather than as ISO 8601 strings. */
module ModelsMessage {
  import opened Outcomes
  import opened Exceptions

  datatype DiscordMessage = DiscordMessage(
    id: int, content: string, authorId: int, channelId: int, timestamp: int,
    editedAt: Option<int> := None)

  predicate Valid(m: DiscordMessage)
  {
    m.id > 0 && m.authorId > 0 && m.channelId > 0 && |m.content| <= 2000
  }

  /** The content normaliser, `value or ""`, gives a string back as it is,
      so the content is kept unchanged. */
  function New(id: int, content: string, authorId: int, channelId: int, timestamp: int,
               editedAt: Option<int> := None): (r: Result<DiscordMessage, Error>)
    ensures r.Ok? <==> id > 0 && authorId > 0 && channelId > 0 && |content| <= 2000
    ensures r.Ok? ==> r.value == DiscordMessage(id, content, authorId, channelId, timestamp, editedAt)
    ensures r.Ok? ==> Valid(r.value)
    ensures r.Err? ==> r.error.kind == ValueError
  {
    if |content| > 2000 then Err(Raise(ValueError, "String should have at most 2000 characters"))
    else if id <= 0 || authorId <= 0 || channelId <= 0 then Err(Raise(ValueError, "Value must be a positive integer"))
    else Ok(DiscordMessage(id, content, authorId, channelId, timestamp, editedAt))
  }

  /** The API payload: `edited_timestamp` is always present, null when the
      message was never edited. */
  datatype MessagePayload = MessagePayload(
    id: int, content: string, authorId: int, channelId: int, timestamp: int, editedTimestamp: Option<int>)

  function FromDiscordFormat(p: MessagePayload): DiscordMessage
  {
    DiscordMessage(p.id, p.content, p.authorId, p.channelId, p.timestamp, p.editedTimestamp)
  }

  function ToDiscordFormat(m: DiscordMessage): (p: MessagePayload)
    ensures p.id == m.id && p.content == m.content && p.authorId == m.authorId && p.channelId == m.channelId
    ensures p.timestamp == m.timestamp
    ensures p.editedTimestamp.None? <==> m.editedAt.None?
    ensures FromDiscordFormat(p) == m
  {
    MessagePayload(m.id, m.content, m.authorId, m.channelId, m.timestamp, m.editedAt)
  }
}
