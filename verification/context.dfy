/** The second-generation message context handed to handlers
    (`MessageContext`): the message's id, content, author, channel and
    timestamp, with the derived command fields and the history query. The
    timestamp's conversion to UTC and the age and thread fields, which read
    the clock or thread data the channel record does not carry, are left
    out. */
module Context {
  import opened Outcomes
  import opened Text
  import opened History
  import State

  datatype MessageContext = MessageContext(
    messageId: int, content: string, author: State.User, channel: State.Channel, timestamp: int)

  /** The command prefixes. */
  predicate IsCommandPrefix(c: char)
  {
    c == '!' || c == '/' || c == '.'
  }

  /** `is_command`: the content starts with one of the prefixes. */
  function IsCommand(ctx: MessageContext): (r: bool)
    ensures r <==> ctx.content != [] && IsCommandPrefix(ctx.content[0])
  {
    StartsWith(ctx.content, "!") || StartsWith(ctx.content, "/") || StartsWith(ctx.content, ".")
  }

  /** `command_parts`: the words of a command, none otherwise. */
  function CommandParts(ctx: MessageContext): (parts: seq<string>)
  {
    if IsCommand(ctx) then Words(ctx.content) else []
  }

  /** `command_name`: the first word without its prefix. */
  function CommandName(ctx: MessageContext): (r: Option<string>)
  {
    if !IsCommand(ctx) || CommandParts(ctx) == [] then None else Some(CommandParts(ctx)[0][1..])
  }

  /** `command_args`: the words after the first. */
  function CommandArgs(ctx: MessageContext): (r: seq<string>)
  {
    if |CommandParts(ctx)| > 1 then CommandParts(ctx)[1..] else []
  }

  /** `mentions_bot`: a `<@` occurs in the content. */
  function MentionsBot(ctx: MessageContext): (r: bool)
    ensures r <==> exists i :: OccursAt(ctx.content, "<@", i)
  {
    MentionsPattern(ctx.content, "<@")
  }

  /** `is_reply`: a `<reply:` marker occurs in the content; the store
      fallback always answers no. */
  function IsReply(ctx: MessageContext): (r: bool)
    ensures r <==> exists i :: OccursAt(ctx.content, "<reply:", i)
  {
    MentionsPattern(ctx.content, "<reply:") || CheckReplyInStore(ctx)
  }

  function CheckReplyInStore(ctx: MessageContext): bool
  {
    false
  }

  /** `sub in s`, with the position it names. */
  function MentionsPattern(s: string, sub: string): (r: bool)
    ensures r <==> exists i :: OccursAt(s, sub, i)
  {
    if Contains(s, sub) then
      ContainsWitness(s, sub);
      true
    else
      ContainsNowhere(s, sub);
      false
  }

  lemma ContainsNowhere(s: string, sub: string)
    requires !Contains(s, sub)
    ensures forall i :: !OccursAt(s, sub, i)
  {
    forall i | OccursAt(s, sub, i)
      ensures false
    {
      ContainsAt(s, sub, i);
    }
  }

  /** `get_history`: the latest `limit` messages of the context's channel,
      oldest first (all of them for a limit of zero or less). */
  function GetHistory(ctx: MessageContext, store: State.MemoryState, limit: int := 20): (r: seq<State.Message>)
    reads store
    requires store.Valid()
    ensures forall m :: m in r ==> m.channelId == ctx.channel.id && store.GetMessage(m.id) == Some(m)
    ensures Sorted(r, State.MessageKey)
    ensures limit > 0 ==> |r| == Min(limit, |store.ChannelMessages(ctx.channel.id)|)
    ensures limit <= 0 ==> multiset(r) == multiset(store.ChannelMessages(ctx.channel.id))
  {
    store.GetMessages(ctx.channel.id, limit)
  }

  /** A command always has a name: its first word starts with the prefix,
      the name is the rest of that word, and the other words are its
      arguments. */
  lemma CommandShape(ctx: MessageContext)
    ensures IsCommand(ctx) <==> CommandName(ctx).Some?
    ensures IsCommand(ctx) ==> CommandParts(ctx) == [[ctx.content[0]] + CommandName(ctx).value] + CommandArgs(ctx)
    ensures !IsCommand(ctx) ==> CommandParts(ctx) == [] && CommandArgs(ctx) == []
  {
    if IsCommand(ctx) {
      FirstWord(ctx.content);
      var parts := Words(ctx.content);
      assert parts[0] == [parts[0][0]] + parts[0][1..];
      assert parts == [parts[0]] + parts[1..];
    }
  }

  /** The command's pieces hold exactly the content's non-whitespace
      characters, in order: prefix, name, then the arguments. */
  lemma {:induction false} CommandPieces(ctx: MessageContext)
    requires IsCommand(ctx)
    ensures [ctx.content[0]] + CommandName(ctx).value + Concat(CommandArgs(ctx)) == NonSpace(ctx.content)
  {
    CommandShape(ctx);
    WordsKeepNonSpace(ctx.content);
    var parts := CommandParts(ctx);
    assert Concat(parts) == parts[0] + Concat(parts[1..]);
    assert parts[1..] == CommandArgs(ctx);
  }
}
