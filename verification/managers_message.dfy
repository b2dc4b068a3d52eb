/** The first-generation message handler's persistence side: it turns an
    incoming Discord user or message into a record, saves it to the
    database and then to the JSONL backup (each sink's failure swallowed on
    its own), loads the recent context of a channel, and splits a long
    reply into chunks at line breaks. */
module ManagersMessage {
  import opened Outcomes
  import opened Text
  import opened Exceptions
  import opened Dicts
  import opened ModelsUser
  import opened ModelsMessage
  import opened Jsonl
  import PersistenceDatabase

  /** The attributes read from a Discord user object; `None` stands for a
      missing or falsy attribute. */
  datatype UserEvent = UserEvent(id: Option<int>, username: Option<string>, bot: Option<bool>)

  /** The attributes read from a Discord message object. `authorId` is
      `None` when the author or its id is missing (likewise `channelId`);
      `timestamp` is `None` when the attribute is not a datetime, and so is
      `editedAt`. */
  datatype MessageEvent = MessageEvent(
    id: Option<int>, content: Option<string>, authorId: Option<int>, channelId: Option<int>,
    timestamp: Option<int>, editedAt: Option<int>)

  /** `int(x or 0)`, with anything not positive replaced by 1. */
  function PositiveOrOne(x: Option<int>): (r: int)
    ensures r >= 1
    ensures r == 1 || (x.Some? && r == x.value)
    ensures x.Some? && x.value > 0 ==> r == x.value
  {
    if x.Some? && x.value > 0 then x.value else 1
  }

  /** The stripped username, "unknown" when that is empty, cut to 32
      characters. */
  function UsernameOf(username: Option<string>): (r: string)
  {
    Take(OrUnknown(Strip(TextOrEmpty(username))), 32)
  }

  function BotOf(bot: Option<bool>): bool
  {
    bot.Some? && bot.value
  }

  /** The record `save_user` builds: the fallback `DiscordUser(1, "unknown")`
      is used only when the normalised attributes are refused. */
  function UserOf(event: UserEvent): DiscordUser
  {
    match ModelsUser.New(PositiveOrOne(event.id), UsernameOf(event.username), bot := BotOf(event.bot))
    case Ok(u) => u
    case Err(_) => DiscordUser(1, "unknown")
  }

  /** The normalised username is always acceptable: between 1 and 32
      characters and not blank. */
  lemma UsernameAcceptable(username: Option<string>)
    ensures 1 <= |UsernameOf(username)| <= 32 && !IsBlank(UsernameOf(username))
  {
    PrefixNotBlank(OrUnknown(Strip(TextOrEmpty(username))), 32);
  }

  /** A name that is not blank is kept stripped, whole when that fits in
      32 characters; a missing or blank one becomes "unknown". */
  lemma UsernameStripped(username: Option<string>)
    ensures username.Some? && !IsBlank(username.value) && |Strip(username.value)| <= 32 ==>
              UsernameOf(username) == Strip(username.value)
    ensures username.None? || IsBlank(username.value) ==> UsernameOf(username) == "unknown"
  {
    if username.None? || IsBlank(username.value) {
      assert Strip(TextOrEmpty(username)) == [];
    } else {
      assert Strip(username.value) != [];
    }
  }

  /** Cutting a string that starts with a non-space character keeps it
      non-blank. */
  lemma PrefixNotBlank(name: string, n: int)
    requires name != [] && !IsSpace(name[0]) && n >= 1
    ensures 1 <= |Take(name, n)| && (n < |name| ==> |Take(name, n)| == n)
    ensures !IsBlank(Take(name, n))
  {
    assert Take(name, n)[0] == name[0];
  }

  /** The fallback record is never used: the user built is exactly the
      normalised attributes, and a valid record. */
  lemma UserOfNormalised(event: UserEvent)
    ensures UserOf(event) == DiscordUser(PositiveOrOne(event.id), UsernameOf(event.username), "0", BotOf(event.bot))
    ensures ModelsUser.Valid(UserOf(event))
  {
    UsernameAcceptable(event.username);
  }

  /** `str(content or "")`, cut to `maxLength` characters as a Python slice
      cuts it when it is longer. */
  function ContentOf(content: Option<string>, maxLength: int): (r: string)
  {
    var c := TextOrEmpty(content);
    if |c| > maxLength then Take(c, maxLength) else c
  }

  /** The content kept is a prefix of the message's text; it is all of it
      when it fits, and exactly `maxLength` characters otherwise. */
  lemma ContentTruncated(content: Option<string>, maxLength: int)
    ensures var c := TextOrEmpty(content);
            |ContentOf(content, maxLength)| <= |c| && ContentOf(content, maxLength) == c[..|ContentOf(content, maxLength)|]
    ensures var c := TextOrEmpty(content);
            |c| <= maxLength ==> ContentOf(content, maxLength) == c
    ensures var c := TextOrEmpty(content);
            0 <= maxLength < |c| ==> |ContentOf(content, maxLength)| == maxLength
  {
  }

  /** The record `save_message` builds, or the ValueError the record
      raises when the kept content is longer than 2000 characters (only
      possible with a length limit above 2000 or below 0). */
  function MessageOf(event: MessageEvent, maxLength: int, now: int): Result<DiscordMessage, Error>
  {
    ModelsMessage.New(PositiveOrOne(event.id), ContentOf(event.content, maxLength),
                      PositiveOrOne(event.authorId), PositiveOrOne(event.channelId),
                      if event.timestamp.Some? then event.timestamp.value else now, event.editedAt)
  }

  /** With a length limit of at most 2000 the record is always built, with
      positive ids, the message's own timestamp when it has one and the
      current time otherwise. */
  lemma MessageOfBuilt(event: MessageEvent, maxLength: int, now: int)
    requires 0 <= maxLength <= 2000
    ensures MessageOf(event, maxLength, now).Ok?
    ensures var m := MessageOf(event, maxLength, now).value;
            ModelsMessage.Valid(m) && m.content == ContentOf(event.content, maxLength)
            && m.timestamp == (if event.timestamp.Some? then event.timestamp.value else now)
            && m.editedAt == event.editedAt
  {
    ContentTruncated(event.content, maxLength);
  }

  /** Building fails exactly when the kept content is over 2000
      characters. */
  lemma MessageOfFails(event: MessageEvent, maxLength: int, now: int)
    ensures MessageOf(event, maxLength, now).Err? <==> |ContentOf(event.content, maxLength)| > 2000
    ensures MessageOf(event, maxLength, now).Err? ==> MessageOf(event, maxLength, now).error.kind == ValueError
  {
  }

  /** The state of the splitting loop: the chunks so far and the chunk
      being filled. */
  datatype Packing = Packing(chunks: seq<string>, current: string)

  /** One line of the splitting loop: the line joins the current chunk
      after a line break (no break when the chunk is empty) unless that
      would exceed `maxLength`; then the current chunk, if any, is closed
      and the line starts the next one. */
  function PackLine(p: Packing, line: string, maxLength: int): Packing
  {
    var delimiter := if p.current != [] then "\n" else "";
    if |p.current| + |delimiter| + |line| > maxLength then
      Packing(if p.current != [] then p.chunks + [p.current] else p.chunks, line)
    else
      Packing(p.chunks, p.current + delimiter + line)
  }

  function Pack(lines: seq<string>, maxLength: int): Packing
    decreases |lines|
  {
    if lines == [] then Packing([], "")
    else PackLine(Pack(lines[..|lines| - 1], maxLength), lines[|lines| - 1], maxLength)
  }

  /** The chunks once the last one is closed. */
  function Flush(p: Packing): seq<string>
  {
    if p.current != [] then p.chunks + [p.current] else p.chunks
  }

  /** `split_message`: a text within the limit is one chunk; a longer one
      is packed line by line. */
  function Chunks(text: string, maxLength: int): seq<string>
  {
    if |text| <= maxLength then [text] else Flush(Pack(SplitOn(text, '\n'), maxLength))
  }

  class MessageHandler {
    const db: PersistenceDatabase.DatabaseWriter
    const jsonl: JsonlWriter
    const contextLimit: int
    const maxMessageLength: int

    constructor (db: PersistenceDatabase.DatabaseWriter, jsonl: JsonlWriter,
                 contextLimit: int := 20, maxMessageLength: int := 2000)
      ensures this.db == db && this.jsonl == jsonl
      ensures this.contextLimit == contextLimit && this.maxMessageLength == maxMessageLength
    {
      this.db := db;
      this.jsonl := jsonl;
      this.contextLimit := contextLimit;
      this.maxMessageLength := maxMessageLength;
    }

    /** `save_user`: the normalised user is stored (replacing any record
        with its id) and its backup write attempted; neither sink's failure
        reaches the caller. */
    method SaveUser(event: UserEvent) returns (user: DiscordUser)
      requires db.Valid()
      modifies db, jsonl
      ensures user == DiscordUser(PositiveOrOne(event.id), UsernameOf(event.username), "0", BotOf(event.bot))
      ensures ModelsUser.Valid(user)
      ensures db.Valid()
      ensures db.users == Put(old(db.users), user.id, user)
      ensures db.categories == old(db.categories) && db.channels == old(db.channels) && db.messages == old(db.messages)
      ensures jsonl.attempts == old(jsonl.attempts) + [UserEntry(user)]
      ensures jsonl.lines == old(jsonl.lines) || jsonl.lines == old(jsonl.lines) + [UserEntry(user)]
    {
      UserOfNormalised(event);
      user := UserOf(event);
      db.SaveUser(user);
      var written := jsonl.WriteUser(user);
    }

    /** `save_message`: the record is built (its ValueError propagates,
        before anything is saved); the database keeps it only when its
        author and channel are stored, and its backup write is attempted
        either way. */
    method SaveMessage(event: MessageEvent, now: int) returns (r: Result<DiscordMessage, Error>)
      requires db.Valid()
      modifies db, jsonl
      ensures r == MessageOf(event, maxMessageLength, now)
      ensures db.Valid()
      ensures r.Err? ==> db.messages == old(db.messages) && jsonl.attempts == old(jsonl.attempts)
                         && jsonl.lines == old(jsonl.lines)
      ensures r.Ok? ==> db.messages == (if r.value.authorId in old(db.users.entries) && r.value.channelId in old(db.channels.entries)
                                        then Put(old(db.messages), r.value.id, r.value) else old(db.messages))
      ensures r.Ok? ==> jsonl.attempts == old(jsonl.attempts) + [MessageEntry(r.value)]
                        && (jsonl.lines == old(jsonl.lines) || jsonl.lines == old(jsonl.lines) + [MessageEntry(r.value)])
      ensures db.categories == old(db.categories) && db.channels == old(db.channels) && db.users == old(db.users)
    {
      var message := MessageOf(event, maxMessageLength, now);
      if message.Err? {
        return message;
      }
      var saved := db.SaveMessage(message.value);
      var written := jsonl.WriteMessage(message.value);
      return message;
    }

    /** `get_context_messages`: the latest `contextLimit` messages of the
        channel, oldest first (none for a limit of zero or less). */
    method GetContextMessages(channelId: int) returns (r: seq<DiscordMessage>)
      requires db.Valid()
      modifies db`initialized
      ensures contextLimit <= 0 ==> r == []
      ensures contextLimit > 0 ==> |r| == if contextLimit < |db.ChannelMessages(channelId)|
                                          then contextLimit else |db.ChannelMessages(channelId)|
      ensures forall m :: m in r ==> m.channelId == channelId && m in Values(db.messages)
      ensures r == PersistenceDatabase.SelectRecent(db.ChannelMessages(channelId), contextLimit)
    {
      r := db.GetMessages(channelId, contextLimit);
      ChannelMessagesOf(db.messages, channelId, r);
    }

    /** `split_message`. */
    method SplitMessage(text: string) returns (chunks: seq<string>)
      ensures chunks == Chunks(text, maxMessageLength)
    {
      if |text| <= maxMessageLength {
        return [text];
      }
      var lines := SplitOn(text, '\n');
      chunks := [];
      var current := "";
      for i := 0 to |lines|
        invariant Pack(lines[..i], maxMessageLength) == Packing(chunks, current)
      {
        assert lines[..i + 1][..i] == lines[..i];
        var line := lines[i];
        var delimiter := if current != [] then "\n" else "";
        if |current| + |delimiter| + |line| > maxMessageLength {
          if current != [] {
            chunks := chunks + [current];
          }
          current := line;
        } else {
          current := current + delimiter + line;
        }
      }
      assert lines[..|lines|] == lines;
      if current != [] {
        chunks := chunks + [current];
      }
    }
  }

  /** A message selected from a channel's messages is a stored message of
      that channel. */
  lemma ChannelMessagesOf(messages: Dict<DiscordMessage>, channelId: int, r: seq<DiscordMessage>)
    requires Dicts.Valid(messages)
    requires multiset(r) <= multiset(Filter(Values(messages), (m: DiscordMessage) => m.channelId == channelId))
    ensures forall m :: m in r ==> m.channelId == channelId && m in Values(messages)
  {
    var f := Filter(Values(messages), (m: DiscordMessage) => m.channelId == channelId);
    forall m | m in r
      ensures m.channelId == channelId && m in Values(messages)
    {
      assert m in multiset(r);
      assert m in multiset(f);
      assert m in f;
    }
  }

  /** Joining after one more part puts a separator before it. */
  lemma {:induction false} JoinWithSnoc(parts: seq<string>, last: string, sep: char)
    ensures JoinWith(parts + [last], sep) == if parts == [] then last else JoinWith(parts, sep) + [sep] + last
    decreases |parts|
  {
    if |parts| == 1 {
      assert parts + [last] == [parts[0], last];
    } else if |parts| > 1 {
      assert (parts + [last])[1..] == parts[1..] + [last];
      JoinWithSnoc(parts[1..], last, sep);
    }
  }

  /** While every line is non-empty, the chunk being filled is non-empty
      and the chunks, with it, join back into the lines read so far. */
  lemma {:induction false} PackRejoins(lines: seq<string>, maxLength: int)
    requires lines != []
    requires forall i :: 0 <= i < |lines| ==> lines[i] != []
    ensures Pack(lines, maxLength).current != []
    ensures JoinWith(Pack(lines, maxLength).chunks + [Pack(lines, maxLength).current], '\n') == JoinWith(lines, '\n')
    decreases |lines|
  {
    var init := lines[..|lines| - 1];
    var line := lines[|lines| - 1];
    if init == [] {
      assert lines == [line];
    } else {
      PackRejoins(init, maxLength);
      var joined := JoinWith(init, '\n');
      PackLineRejoins(Pack(init, maxLength), line, maxLength, joined);
      JoinWithSnoc(init, line, '\n');
      assert init + [line] == lines;
    }
  }

  /** Packing one more non-empty line onto a packing that joins back into
      `joined` gives one that joins back into `joined`, a line break and the
      line. */
  lemma PackLineRejoins(p: Packing, line: string, maxLength: int, joined: string)
    requires p.current != [] && line != []
    requires JoinWith(p.chunks + [p.current], '\n') == joined
    ensures PackLine(p, line, maxLength).current != []
    ensures JoinWith(PackLine(p, line, maxLength).chunks + [PackLine(p, line, maxLength).current], '\n') == joined + "\n" + line
  {
    if |p.current| + 1 + |line| > maxLength {
      JoinWithSnoc(p.chunks + [p.current], line, '\n');
    } else {
      JoinWithSnoc(p.chunks, p.current, '\n');
      JoinWithSnoc(p.chunks, p.current + "\n" + line, '\n');
    }
  }

  /** Every chunk of the packing is non-empty. */
  lemma {:induction false} PackNonEmpty(lines: seq<string>, maxLength: int)
    ensures forall i :: 0 <= i < |Pack(lines, maxLength).chunks| ==> Pack(lines, maxLength).chunks[i] != []
    decreases |lines|
  {
    if lines != [] {
      PackNonEmpty(lines[..|lines| - 1], maxLength);
    }
  }

  /** When every line fits, the chunk being filled and every closed chunk
      fit too. */
  lemma {:induction false} PackBounded(lines: seq<string>, maxLength: int)
    requires forall i :: 0 <= i < |lines| ==> |lines[i]| <= maxLength
    ensures |Pack(lines, maxLength).current| <= maxLength || (lines == [] && maxLength < 0)
    ensures forall i :: 0 <= i < |Pack(lines, maxLength).chunks| ==> |Pack(lines, maxLength).chunks[i]| <= maxLength
    decreases |lines|
  {
    if lines != [] {
      PackBounded(lines[..|lines| - 1], maxLength);
    }
  }

  /** Lines that are all empty pack into nothing: an empty line that would
      start a chunk is dropped. */
  lemma {:induction false} PackEmptyLines(lines: seq<string>, maxLength: int)
    requires forall i :: 0 <= i < |lines| ==> lines[i] == ""
    ensures Pack(lines, maxLength) == Packing([], "")
    decreases |lines|
  {
    if lines != [] {
      PackEmptyLines(lines[..|lines| - 1], maxLength);
    }
  }

  /** A text over the limit made only of line breaks gives no chunk. */
  lemma NewlinesOnlyDropped(n: nat, maxLength: int)
    requires n > maxLength
    ensures Chunks(seq(n, _ => '\n'), maxLength) == []
  {
    var text := seq(n, _ => '\n');
    SplitOnSeparatorsOnly(text, '\n');
    PackEmptyLines(SplitOn(text, '\n'), maxLength);
  }

  /** A split text never yields an empty chunk. */
  lemma ChunksNonEmpty(text: string, maxLength: int)
    requires |text| > maxLength
    ensures forall i :: 0 <= i < |Chunks(text, maxLength)| ==> Chunks(text, maxLength)[i] != []
  {
    PackNonEmpty(SplitOn(text, '\n'), maxLength);
  }

  /** When no line of the text is longer than the limit, no chunk is. */
  lemma ChunksBounded(text: string, maxLength: int)
    requires forall i :: 0 <= i < |SplitOn(text, '\n')| ==> |SplitOn(text, '\n')[i]| <= maxLength
    ensures forall i :: 0 <= i < |Chunks(text, maxLength)| ==> |Chunks(text, maxLength)[i]| <= maxLength
  {
    var lines := SplitOn(text, '\n');
    if |text| > maxLength {
      PackBounded(lines, maxLength);
    } else {
      assert lines[0] == lines[0];
      assert maxLength >= 0;
    }
  }

  /** When the text holds no empty line, the chunks joined with line breaks
      give the text back: nothing is lost or reordered. */
  lemma ChunksRejoin(text: string, maxLength: int)
    requires forall i :: 0 <= i < |SplitOn(text, '\n')| ==> SplitOn(text, '\n')[i] != []
    ensures JoinWith(Chunks(text, maxLength), '\n') == text
  {
    if |text| > maxLength {
      PackRejoins(SplitOn(text, '\n'), maxLength);
      SplitJoin(text, '\n');
    }
  }

  /** A text of one line longer than the limit comes back whole, as a
      single chunk over the limit: lines are never cut. */
  lemma OverlongLineKept(text: string, maxLength: int)
    requires '\n' !in text && text != []
    ensures Chunks(text, maxLength) == [text]
  {
    SplitOnWithout(text, '\n');
    assert [text][..0] == [];
    assert Pack([], maxLength) == Packing([], "");
    assert "" + "" + text == text;
    assert Pack([text], maxLength) == Packing([], text);
  }

  lemma {:induction false} SplitOnWithout(s: string, sep: char)
    requires sep !in s
    ensures SplitOn(s, sep) == [s]
    decreases |s|
  {
    if s != [] {
      SplitOnWithout(s[1..], sep);
      assert [s[0]] + s[1..] == s;
    }
  }
}
