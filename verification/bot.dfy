/** The second-generation bot orchestrator (`Bot`), from a message event
    to the reply: events from bots or without a message or author are
    ignored; otherwise the channel, the author and the message are
    recorded in the in-memory store, the first handler that takes the
    message answers, and a non-empty answer is sent as a reply and
    recorded as the bot's own message. The Discord client is not modelled:
    the event's attributes, the reply Discord returns and the current time
    are parameters, and the replies sent are kept in a ghost log. The
    ready event (discovery and plugins) and the plugins' message hooks are
    not part of this model. */
module DiscordBot {
  import opened Outcomes
  import opened Text
  import opened Exceptions
  import opened Types
  import opened Dicts
  import opened State
  import opened Context
  import opened Handlers
  import StateModels

  /** The attributes of a message's channel. `id` is `None` when missing
      or falsy, and so is `parentId`; `name` is `None` when the attribute is
      missing (it becomes "unknown"), and the caller passes `Some("None")`,
      the text `str` gives, for a `name` set to `None`; a `topic` of `None`
      or "" is no topic. */
  datatype RawChannel = RawChannel(id: Option<int>, name: Option<string>, parentId: Option<int>, topic: Option<string>)

  /** The attributes of a message's author. */
  datatype RawAuthor = RawAuthor(id: Option<int>, username: Option<string>, bot: bool)

  /** The attributes of a message; `canReply` says whether it has a
      callable `reply`. `content` is what `str` makes of the attribute:
      the caller passes "" when it is missing and "None" when it is
      `None`. */
  datatype RawMessage = RawMessage(
    id: Option<int>, content: string, author: Option<RawAuthor>, channel: Option<RawChannel>,
    timestamp: Option<int>, canReply: bool)

  /** A message-create event. */
  datatype MessageEvent = MessageEvent(message: Option<RawMessage>)

  /** The client's own account. The caller passes "bot" as `username`
      when the attribute is missing and "" when it is `None`, which
      `_safe_username` turns into "unknown" as it does `None`. */
  datatype BotAccount = BotAccount(id: Option<int>, username: string)

  /** What Discord returns for a sent reply; a send that raises returns
      nothing, and is passed as `None`. */
  datatype ReplyResult = ReplyResult(id: Option<int>, timestamp: Option<int>)

  /** A reply sent: the message answered and the text. */
  datatype Reply = Reply(messageId: int, content: string)

  /** `int(x or 0)`. */
  function IdOrZero(x: Option<int>): int
  {
    if x.Some? then x.value else 0
  }

  /** `_safe_username`: the stripped value, "unknown" when blank or
      missing, a single character padded with "_", cut to 32 characters;
      always a valid username. */
  function SafeUsername(value: Option<string>): (r: string)
    ensures IsUsername(r)
  {
    var text := OrUnknown(Strip(TextOrEmpty(value)));
    var padded := if |text| == 1 then text + "_" else text;
    Take(padded, 32)
  }

  /** The three ways `_safe_username` shapes a name. */
  lemma SafeUsernameCases(value: Option<string>)
    ensures value.None? || IsBlank(value.value) ==> SafeUsername(value) == "unknown"
    ensures value.Some? && |Strip(value.value)| == 1 ==> SafeUsername(value) == Strip(value.value) + "_"
    ensures value.Some? && 2 <= |Strip(value.value)| <= 32 ==> SafeUsername(value) == Strip(value.value)
    ensures value.Some? && |Strip(value.value)| > 32 ==> SafeUsername(value) == Strip(value.value)[..32]
  {
    if value.None? || IsBlank(value.value) {
      SafeUsernameBlank(value);
    } else {
      SafeUsernameKept(value);
    }
  }

  lemma SafeUsernameBlank(value: Option<string>)
    requires value.None? || IsBlank(value.value)
    ensures SafeUsername(value) == "unknown"
  {
    assert IsBlank(TextOrEmpty(value));
    assert Strip(TextOrEmpty(value)) == [];
    assert |"unknown"| == 7;
  }

  lemma SafeUsernameKept(value: Option<string>)
    requires value.Some? && !IsBlank(value.value)
    ensures var t := Strip(value.value); t != [] && SafeUsername(value) == Take(if |t| == 1 then t + "_" else t, 32)
  {
    assert Strip(TextOrEmpty(value)) == Strip(value.value) != [];
  }

  /** The parent a new channel keeps: a truthy parent id that is a stored
      category, and none otherwise. */
  function ParentOf(raw: RawChannel, categories: Dict<Category>): (r: Option<int>)
    ensures r.Some? ==> r.value in categories.entries && raw.parentId == Some(r.value)
    ensures raw.parentId.Some? && raw.parentId.value != 0 && raw.parentId.value in categories.entries ==> r == raw.parentId
  {
    if raw.parentId.Some? && raw.parentId.value != 0 && raw.parentId.value in categories.entries then raw.parentId else None
  }

  /** `str(topic) if topic else None`. */
  function TopicOf(raw: RawChannel): Option<string>
  {
    if raw.topic.Some? && raw.topic.value != "" then raw.topic else None
  }

  /** The channel `_ensure_channel` builds for an unknown id, or nothing
      when the record is refused. */
  function BuiltChannel(raw: RawChannel, serverId: int, categories: Dict<Category>): (r: Option<Channel>)
    ensures r.Some? ==> ValidChannel(r.value) && r.value.id == IdOrZero(raw.id) && r.value.serverId == serverId
    ensures r.Some? && IsCategorized(r.value) ==> r.value.categoryId.value in categories.entries
  {
    var name := if raw.name.Some? then raw.name.value else "unknown";
    match NewChannel(IdOrZero(raw.id), name, serverId, ParentOf(raw, categories), 0, TopicOf(raw))
    case Ok(c) => Some(c)
    case Err(_) => None
  }

  /** The event is dropped before anything happens: no message, no
      author, or an author that is a bot. */
  predicate Ignored(event: MessageEvent)
  {
    event.message.None? || event.message.value.author.None? || event.message.value.author.value.bot
  }

  /** The user recorded for the author. */
  function AuthorUser(author: RawAuthor): Result<User, Error>
  {
    NewUser(IdOrZero(author.id), SafeUsername(author.username), bot := author.bot)
  }

  /** The message recorded for the event, by that author in that channel. */
  function InboundMessage(message: RawMessage, user: User, channel: Channel, now: int): Result<Message, Error>
  {
    NewMessage(IdOrZero(message.id), Take(message.content, 2000), user.id, channel.id,
               if message.timestamp.Some? then message.timestamp.value else now)
  }

  /** `id` is the least id from `start` on that no stored message has. */
  predicate LeastFreeFrom(id: int, start: int, messages: Dict<Message>)
  {
    id >= start && id !in messages.entries && forall k :: start <= k < id ==> k in messages.entries
  }

  /** The least id from `start` on that no stored message has. */
  function FreeIdFrom(start: int, messages: Dict<Message>): (id: int)
    ensures LeastFreeFrom(id, start, messages)
    decreases |set k | k in messages.entries && k >= start|
  {
    if start !in messages.entries then start
    else
      assert (set k | k in messages.entries && k >= start) == (set k | k in messages.entries && k >= start + 1) + {start};
      FreeIdFrom(start + 1, messages)
  }

  /** The id the reply is recorded under: the one Discord returned when
      positive, else the least free id after the message's own. */
  function ReplyId(message: RawMessage, reply: ReplyResult, messages: Dict<Message>): (id: int)
    ensures IdOrZero(reply.id) > 0 ==> id == reply.id.value
    ensures IdOrZero(reply.id) <= 0 ==> LeastFreeFrom(id, IdOrZero(message.id) + 1, messages)
  {
    if IdOrZero(reply.id) > 0 then reply.id.value else FreeIdFrom(IdOrZero(message.id) + 1, messages)
  }

  /** The user saved for the bot's own account. */
  function BotUser(account: BotAccount): (r: Result<User, Error>)
    ensures r.Ok? <==> IdOrZero(account.id) > 0 && IsSnowflake(account.id.value)
    ensures r.Ok? ==> r.value == StateModels.User(account.id.value, SafeUsername(Some(account.username)), "0", true)
  {
    NewUser(IdOrZero(account.id), SafeUsername(Some(account.username)), bot := true)
  }

  /** The reply message `_reply_and_record` stores: nothing when the
      message has no `reply`, the send raises, or the bot user is refused;
      otherwise the reply under `ReplyId`, when it builds. */
  function StoredReply(message: RawMessage, channelId: int, response: string, result: Option<ReplyResult>,
                       account: BotAccount, messages: Dict<Message>, now: int): Option<Message>
  {
    if !message.canReply || result.None? || BotUser(account).Err? then None
    else
      var timestamp := if result.value.timestamp.Some? then result.value.timestamp.value else now;
      match NewMessage(ReplyId(message, result.value, messages), Take(response, 2000), account.id.value, channelId, timestamp)
      case Ok(m) => Some(m)
      case Err(_) => None
  }

  /** A reply that was sent is stored exactly when the bot, the channel
      and the reply id are all snowflakes; it is then the bot's message in
      that channel, with the content cut to 2000 characters and Discord's
      timestamp, or `now` when there is none. */
  lemma StoredReplySpec(message: RawMessage, channelId: int, response: string, result: Option<ReplyResult>,
                        account: BotAccount, messages: Dict<Message>, now: int)
    requires message.canReply && result.Some?
    ensures var s := StoredReply(message, channelId, response, result, account, messages, now);
      && (s.Some? <==> IdOrZero(account.id) > 0 && IsSnowflake(account.id.value) && IsSnowflake(channelId)
                       && IsSnowflake(ReplyId(message, result.value, messages)))
      && (s.Some? ==> && s.value.id == ReplyId(message, result.value, messages)
                      && s.value.authorId == account.id.value && s.value.channelId == channelId
                      && s.value.content == Take(response, 2000)
                      && s.value.timestamp == (if result.value.timestamp.Some? then result.value.timestamp.value else now))
  {
  }

  /** The users after a reply was sent: the bot user upserted, when it
      builds. */
  function WithBotUser(users: Dict<User>, account: BotAccount): (r: Dict<User>)
    requires Dicts.Valid(users)
    ensures Dicts.Valid(r)
  {
    if BotUser(account).Ok? then Put(users, account.id.value, BotUser(account).value) else users
  }

  /** The messages after a reply: the stored reply upserted, if any. */
  function WithReply(messages: Dict<Message>, stored: Option<Message>): (r: Dict<Message>)
    requires Dicts.Valid(messages)
    ensures Dicts.Valid(r)
  {
    if stored.Some? then Put(messages, stored.value.id, stored.value) else messages
  }

  /** The answer of the first handler that takes the message, or nothing
      when none does. */
  function FirstAnswer(handlers: seq<Handler>, ctx: MessageContext): Option<string>
  {
    if handlers == [] then None
    else if CanHandle(handlers[0], ctx) then Handle(handlers[0], ctx)
    else FirstAnswer(handlers[1..], ctx)
  }

  /** `FirstAnswer` is the answer of the handler at the first index whose
      `can_handle` holds, and nothing when there is no such index. */
  lemma {:induction false} FirstAnswerIsFirstMatch(handlers: seq<Handler>, ctx: MessageContext)
    ensures (forall i :: 0 <= i < |handlers| ==> !CanHandle(handlers[i], ctx)) ==> FirstAnswer(handlers, ctx) == None
    ensures forall i :: (0 <= i < |handlers| && CanHandle(handlers[i], ctx)
                           && forall j :: 0 <= j < i ==> !CanHandle(handlers[j], ctx))
                        ==> FirstAnswer(handlers, ctx) == Handle(handlers[i], ctx)
  {
    if forall i :: 0 <= i < |handlers| ==> !CanHandle(handlers[i], ctx) {
      FirstAnswerNone(handlers, ctx);
    }
    forall i | 0 <= i < |handlers| && CanHandle(handlers[i], ctx) && forall j :: 0 <= j < i ==> !CanHandle(handlers[j], ctx)
      ensures FirstAnswer(handlers, ctx) == Handle(handlers[i], ctx)
    {
      FirstAnswerAt(handlers, ctx, i);
    }
  }

  lemma {:induction false} FirstAnswerNone(handlers: seq<Handler>, ctx: MessageContext)
    requires forall i :: 0 <= i < |handlers| ==> !CanHandle(handlers[i], ctx)
    ensures FirstAnswer(handlers, ctx) == None
    decreases |handlers|
  {
    if handlers != [] {
      assert forall i :: 0 <= i < |handlers[1..]| ==> handlers[1..][i] == handlers[i + 1];
      FirstAnswerNone(handlers[1..], ctx);
    }
  }

  lemma {:induction false} FirstAnswerAt(handlers: seq<Handler>, ctx: MessageContext, i: int)
    requires 0 <= i < |handlers| && CanHandle(handlers[i], ctx)
    requires forall j :: 0 <= j < i ==> !CanHandle(handlers[j], ctx)
    ensures FirstAnswer(handlers, ctx) == Handle(handlers[i], ctx)
    decreases i
  {
    if i > 0 {
      assert !CanHandle(handlers[0], ctx);
      assert forall j :: 0 <= j < |handlers[1..]| ==> handlers[1..][j] == handlers[j + 1];
      FirstAnswerAt(handlers[1..], ctx, i - 1);
    }
  }

  /** The channel `_ensure_channel` gives for a message's channel
      attributes, against the stored channels and categories. */
  function ChannelFor(raw: Option<RawChannel>, channels: Dict<Channel>, categories: Dict<Category>, serverId: int): Option<Channel>
  {
    if raw.None? || IdOrZero(raw.value.id) <= 0 then None
    else if IdOrZero(raw.value.id) in channels.entries then Some(channels.entries[IdOrZero(raw.value.id)])
    else BuiltChannel(raw.value, serverId, categories)
  }

  /** The channel map after `_ensure_channel`: a built channel for a new
      positive id is added, and every stored channel stays as it was. */
  function ChannelsAfter(raw: Option<RawChannel>, channels: Dict<Channel>, categories: Dict<Category>, serverId: int)
    : (r: Dict<Channel>)
    requires Dicts.Valid(channels)
    ensures Dicts.Valid(r)
    ensures forall k :: k in channels.entries ==> k in r.entries && r.entries[k] == channels.entries[k]
    ensures var c := ChannelFor(raw, channels, categories, serverId);
      c.Some? ==> IdOrZero(raw.value.id) in r.entries && r.entries[IdOrZero(raw.value.id)] == c.value
    ensures forall k :: k in r.entries && k !in channels.entries ==>
      ChannelFor(raw, channels, categories, serverId).Some? && k == IdOrZero(raw.value.id)
  {
    if raw.None? || IdOrZero(raw.value.id) <= 0 || IdOrZero(raw.value.id) in channels.entries then channels
    else
      match BuiltChannel(raw.value, serverId, categories)
      case Some(c) => Put(channels, c.id, c)
      case None => channels
  }

  /** The channel, author and message `_on_message` records for an event,
      or nothing when the event is ignored or one of them is refused. */
  function Records(event: MessageEvent, channels: Dict<Channel>, categories: Dict<Category>, serverId: int, now: int)
    : Option<(Channel, User, Message)>
  {
    if Ignored(event) then None
    else
      var message := event.message.value;
      match ChannelFor(message.channel, channels, categories, serverId)
      case None => None
      case Some(channel) =>
        match AuthorUser(message.author.value)
        case Err(_) => None
        case Ok(user) =>
          match InboundMessage(message, user, channel, now)
          case Err(_) => None
          case Ok(inbound) => Some((channel, user, inbound))
  }

  /** The context the handlers see for the recorded message. */
  function ContextOf(records: (Channel, User, Message)): MessageContext
  {
    MessageContext(records.2.id, records.2.content, records.1, records.0, records.2.timestamp)
  }

  /** The reply an answer leads to: a non-empty answer is sent to a
      message that has `reply`, unless the send raises. */
  function ReplySent(message: RawMessage, answer: Option<string>, result: Option<ReplyResult>): seq<Reply>
  {
    if answer.Some? && answer.value != "" && message.canReply && result.Some? then [Reply(IdOrZero(message.id), answer.value)]
    else []
  }

  /** The records of an event whose channel, author and message were all
      accepted. */
  lemma RecordsFound(event: MessageEvent, channels: Dict<Channel>, categories: Dict<Category>, serverId: int, now: int,
                     channel: Channel, user: User, inbound: Message)
    requires !Ignored(event)
    requires ChannelFor(event.message.value.channel, channels, categories, serverId) == Some(channel)
    requires AuthorUser(event.message.value.author.value) == Ok(user)
    requires InboundMessage(event.message.value, user, channel, now) == Ok(inbound)
    ensures Records(event, channels, categories, serverId, now) == Some((channel, user, inbound))
  {
  }

  class Bot {
    const serverId: int
    const handlers: seq<Handler>
    const state: MemoryState
    const account: BotAccount
    /** The replies sent, in order. */
    ghost var sent: seq<Reply>

    constructor (serverId: int, handlers: seq<Handler>, state: MemoryState, account: BotAccount)
      ensures this.serverId == serverId && this.handlers == handlers && this.state == state
      ensures this.account == account && sent == []
    {
      this.serverId := serverId;
      this.handlers := handlers;
      this.state := state;
      this.account := account;
      sent := [];
    }

    /** `_ensure_channel`: nothing for a missing or non-positive id; the
        stored channel as it is; otherwise the channel built from the
        event, saved. The parent is kept only when it is a stored
        category, so the save never fails. */
    method EnsureChannel(raw: Option<RawChannel>) returns (r: Option<Channel>)
      requires state.Valid()
      modifies state
      ensures state.Valid()
      ensures state.categories == old(state.categories) && state.users == old(state.users)
      ensures state.messages == old(state.messages)
      ensures raw.None? || IdOrZero(raw.value.id) <= 0 ==> r.None? && state.channels == old(state.channels)
      ensures raw.Some? && IdOrZero(raw.value.id) > 0 && IdOrZero(raw.value.id) in old(state.channels.entries) ==>
                r == Some(old(state.channels.entries[IdOrZero(raw.value.id)])) && state.channels == old(state.channels)
      ensures raw.Some? && IdOrZero(raw.value.id) > 0 && IdOrZero(raw.value.id) !in old(state.channels.entries) ==>
                r == BuiltChannel(raw.value, serverId, old(state.categories))
                && state.channels == (if r.Some? then Put(old(state.channels), r.value.id, r.value) else old(state.channels))
      ensures r.Some? ==> state.GetChannel(r.value.id) == r
      ensures r == ChannelFor(raw, old(state.channels), old(state.categories), serverId)
      ensures state.channels == ChannelsAfter(raw, old(state.channels), old(state.categories), serverId)
    {
      if raw.None? || IdOrZero(raw.value.id) <= 0 {
        return None;
      }
      var channelId := IdOrZero(raw.value.id);
      var existing := state.GetChannel(channelId);
      if existing.Some? {
        return existing;
      }
      var built := BuiltChannel(raw.value, serverId, state.categories);
      if built.None? {
        return None;
      }
      var saved := state.SaveChannel(built.value);
      assert saved.Pass?;
      return built;
    }

    /** The handler loop: the first handler that takes the message
        answers, and the later ones are not asked, even when that answer
        is nothing. */
    method Dispatch(ctx: MessageContext) returns (response: Option<string>)
      ensures (forall i :: 0 <= i < |handlers| ==> !CanHandle(handlers[i], ctx)) ==> response == None
      ensures forall i :: (0 <= i < |handlers| && CanHandle(handlers[i], ctx)
                             && forall j :: 0 <= j < i ==> !CanHandle(handlers[j], ctx))
                          ==> response == Handle(handlers[i], ctx)
      ensures response == FirstAnswer(handlers, ctx)
    {
      for i := 0 to |handlers|
        invariant forall j :: 0 <= j < i ==> !CanHandle(handlers[j], ctx)
        invariant FirstAnswer(handlers[i..], ctx) == FirstAnswer(handlers, ctx)
      {
        assert handlers[i..][0] == handlers[i] && handlers[i..][1..] == handlers[i + 1..];
        if CanHandle(handlers[i], ctx) {
          return Handle(handlers[i], ctx);
        }
      }
      return None;
    }

    /** The fallback reply id: the least id from `start` on that no
        stored message has. */
    method NextFreeId(start: int) returns (id: int)
      ensures LeastFreeFrom(id, start, state.messages)
      ensures id == FreeIdFrom(start, state.messages)
    {
      id := start;
      while id in state.messages.entries
        invariant id >= start && forall k :: start <= k < id ==> k in state.messages.entries
        decreases |set k | k in state.messages.entries && k >= id|
      {
        ghost var before := set k | k in state.messages.entries && k >= id;
        ghost var after := set k | k in state.messages.entries && k >= id + 1;
        assert before == after + {id} && id !in after;
        id := id + 1;
      }
    }

    /** `_reply_and_record`: a message without `reply` gets nothing. The
        reply is sent; a send that raises (`result` is `None`) stops here,
        before anything is stored, and `_on_message` swallows the error.
        Then, when the bot has a positive id, the bot user is stored and the
        reply is recorded under the id Discord returned, or else under the
        least free id after the message's own. */
    method ReplyAndRecord(raw: RawMessage, channelId: int, response: string, result: Option<ReplyResult>, now: int)
      returns (stored: Option<Message>)
      requires state.Valid() && channelId in state.channels.entries
      modifies this, state
      ensures state.Valid()
      ensures state.categories == old(state.categories) && state.channels == old(state.channels)
      ensures !raw.canReply || result.None? ==> sent == old(sent) && state.users == old(state.users) && stored.None?
      ensures raw.canReply && result.Some? ==>
                sent == old(sent) + [Reply(IdOrZero(raw.id), response)] && state.users == WithBotUser(old(state.users), account)
      ensures !(raw.canReply && result.Some? && IdOrZero(account.id) > 0 && IsSnowflake(account.id.value)) ==>
                state.users == old(state.users)
      ensures raw.canReply && result.Some? && IdOrZero(account.id) > 0 && IsSnowflake(account.id.value) ==>
                state.users == Put(old(state.users), account.id.value,
                                   StateModels.User(account.id.value, SafeUsername(Some(account.username)), "0", true))
      ensures stored == StoredReply(raw, channelId, response, result, account, old(state.messages), now)
      ensures state.messages == WithReply(old(state.messages), stored)
      ensures stored.None? ==> state.messages == old(state.messages)
      ensures stored.Some? ==>
                && raw.canReply && result.Some? && IdOrZero(account.id) > 0
                && state.messages == Put(old(state.messages), stored.value.id, stored.value)
                && stored.value.authorId == account.id.value && stored.value.channelId == channelId
                && stored.value.content == Take(response, 2000)
      ensures stored.Some? && result.Some? && IdOrZero(result.value.id) > 0 ==> stored.value.id == result.value.id.value
      ensures stored.Some? && result.Some? && IdOrZero(result.value.id) <= 0 ==>
                LeastFreeFrom(stored.value.id, IdOrZero(raw.id) + 1, old(state.messages))
    {
      if !raw.canReply || result.None? {
        return None;
      }
      var sentResult := result.value;
      sent := sent + [Reply(IdOrZero(raw.id), response)];
      var botId := IdOrZero(account.id);
      if botId <= 0 {
        return None;
      }
      var botUser := NewUser(botId, SafeUsername(Some(account.username)), bot := true);
      if botUser.Err? {
        return None;
      }
      state.SaveUser(botUser.value);
      var replyId := IdOrZero(sentResult.id);
      if replyId <= 0 {
        replyId := NextFreeId(IdOrZero(raw.id) + 1);
      }
      var timestamp := if sentResult.timestamp.Some? then sentResult.timestamp.value else now;
      var reply := NewMessage(replyId, Take(response, 2000), botId, channelId, timestamp);
      if reply.Err? {
        return None;
      }
      var saved := state.SaveMessage(reply.value);
      assert saved.Pass?;
      return Some(reply.value);
    }

    /** Records the author and the message once the channel is known;
        either record being refused stops the event there. */
    method RecordInbound(message: RawMessage, author: RawAuthor, channel: Channel, now: int)
      returns (r: Option<(User, Message)>)
      requires state.Valid() && state.GetChannel(channel.id) == Some(channel)
      modifies state
      ensures state.Valid()
      ensures state.categories == old(state.categories) && state.channels == old(state.channels)
      ensures AuthorUser(author).Err? ==> r.None? && state.users == old(state.users) && state.messages == old(state.messages)
      ensures AuthorUser(author).Ok? ==>
                state.users == Put(old(state.users), AuthorUser(author).value.id, AuthorUser(author).value)
      ensures AuthorUser(author).Ok? ==>
                var m := InboundMessage(message, AuthorUser(author).value, channel, now);
                (m.Err? ==> r.None? && state.messages == old(state.messages))
                && (m.Ok? ==> r == Some((AuthorUser(author).value, m.value))
                              && state.messages == Put(old(state.messages), m.value.id, m.value))
    {
      var user := AuthorUser(author);
      if user.Err? {
        return None;
      }
      state.SaveUser(user.value);
      var inbound := InboundMessage(message, user.value, channel, now);
      if inbound.Err? {
        return None;
      }
      var saved := state.SaveMessage(inbound.value);
      assert saved.Pass?;
      return Some((user.value, inbound.value));
    }

    /** `_on_message`: an ignored event changes nothing and sends nothing;
        otherwise the channel, author and message are recorded, the first
        handler that takes the message answers, and a non-empty answer is
        sent and recorded. `result` is what sending the reply returns, or
        `None` when the send raises. */
    method OnMessage(event: MessageEvent, result: Option<ReplyResult>, now: int)
      requires state.Valid()
      modifies this, state
      ensures state.Valid()
      ensures Ignored(event) ==>
                sent == old(sent) && state.channels == old(state.channels)
                && state.users == old(state.users) && state.messages == old(state.messages)
      ensures state.categories == old(state.categories)
      ensures var records := Records(event, old(state.channels), old(state.categories), serverId, now);
              records.None? ==> sent == old(sent)
      ensures var records := Records(event, old(state.channels), old(state.categories), serverId, now);
              records.Some? ==>
                && state.GetChannel(records.value.0.id) == Some(records.value.0)
                && records.value.1.id in state.users.entries
                && records.value.2.id in state.messages.entries
      ensures var records := Records(event, old(state.channels), old(state.categories), serverId, now);
              records.Some? ==>
                sent == old(sent) + ReplySent(event.message.value, FirstAnswer(handlers, ContextOf(records.value)), result)
      ensures var records := Records(event, old(state.channels), old(state.categories), serverId, now);
              records.Some? && ReplySent(event.message.value, FirstAnswer(handlers, ContextOf(records.value)), result) == [] ==>
                && state.users == Put(old(state.users), records.value.1.id, records.value.1)
                && state.messages == Put(old(state.messages), records.value.2.id, records.value.2)
      ensures var records := Records(event, old(state.channels), old(state.categories), serverId, now);
              records.Some? ==>
                var answer := FirstAnswer(handlers, ContextOf(records.value));
                var inboundMessages := Put(old(state.messages), records.value.2.id, records.value.2);
                ReplySent(event.message.value, answer, result) != [] ==>
                  && state.users == WithBotUser(Put(old(state.users), records.value.1.id, records.value.1), account)
                  && state.messages == WithReply(inboundMessages,
                       StoredReply(event.message.value, records.value.0.id, answer.value, result, account, inboundMessages, now))
      ensures !Ignored(event) ==>
                state.channels == ChannelsAfter(event.message.value.channel, old(state.channels), old(state.categories), serverId)
      ensures !Ignored(event) ==>
                var message := event.message.value;
                var channel := ChannelFor(message.channel, old(state.channels), old(state.categories), serverId);
                var user := AuthorUser(message.author.value);
                && (channel.None? || user.Err? ==> state.users == old(state.users) && state.messages == old(state.messages))
                && (channel.Some? && user.Ok? && InboundMessage(message, user.value, channel.value, now).Err? ==>
                      state.users == Put(old(state.users), user.value.id, user.value) && state.messages == old(state.messages))
    {
      if event.message.None? {
        return;
      }
      var message := event.message.value;
      if message.author.None? {
        return;
      }
      var author := message.author.value;
      if author.bot {
        return;
      }
      var channel := EnsureChannel(message.channel);
      if channel.None? {
        return;
      }
      var recorded := RecordInbound(message, author, channel.value, now);
      if recorded.None? {
        return;
      }
      var (user, inbound) := recorded.value;
      RecordsFound(event, old(state.channels), old(state.categories), serverId, now, channel.value, user, inbound);
      Respond(message, (channel.value, user, inbound), result, now);
    }

    /** The handler loop of `_on_message` once the records are stored: the
        first handler that takes the message answers, and a non-empty
        answer is sent and recorded; the inbound records stay stored. */
    method Respond(message: RawMessage, records: (Channel, User, Message), result: Option<ReplyResult>, now: int)
      requires state.Valid() && state.GetChannel(records.0.id) == Some(records.0)
      requires records.1.id in state.users.entries && records.2.id in state.messages.entries
      modifies this, state
      ensures state.Valid() && state.GetChannel(records.0.id) == Some(records.0)
      ensures records.1.id in state.users.entries && records.2.id in state.messages.entries
      ensures state.categories == old(state.categories) && state.channels == old(state.channels)
      ensures sent == old(sent) + ReplySent(message, FirstAnswer(handlers, ContextOf(records)), result)
      ensures ReplySent(message, FirstAnswer(handlers, ContextOf(records)), result) == [] ==>
                state.users == old(state.users) && state.messages == old(state.messages)
      ensures var answer := FirstAnswer(handlers, ContextOf(records));
              ReplySent(message, answer, result) != [] ==>
                && state.users == WithBotUser(old(state.users), account)
                && state.messages == WithReply(old(state.messages),
                                               StoredReply(message, records.0.id, answer.value, result, account, old(state.messages), now))
    {
      var response := Dispatch(ContextOf(records));
      if response.Some? && response.value != "" {
        var stored := ReplyAndRecord(message, records.0.id, response.value, result, now);
      }
    }
  }
}
