/** The first-generation text-channel record (`DiscordTextChannel`) and its
    Discord API payload. The name must match `^[a-z0-9-]{1,100}$` under
    Python's `re.match`, whose `$` also matches just before a final newline;
    the model keeps that reading (`NameMatchesAsWritten`) beside the strict
    one the rule evidently intends (`IsChannelName`), which record
    construction uses. */
module ModelsChannel {
  import opened Outcomes
  import opened Exceptions
  import opened Text

  datatype DiscordTextChannel = DiscordTextChannel(
    id: int, name: string, serverId: int, categoryId: Option<int> := None, position: int := 0)

  predicate IsNameChar(c: char)
  {
    IsLowerAlpha(c) || IsDigit(c) || c == '-'
  }

  /** 1..100 characters from a-z, 0-9 and '-'. */
  predicate IsChannelName(v: string)
  {
    1 <= |v| <= 100 && forall i :: 0 <= i < |v| ==> IsNameChar(v[i])
  }

  /** What `re.match(r"^[a-z0-9-]{1,100}$", v)` accepts: a strict name, or a
      strict name followed by one newline. */
  predicate NameMatchesAsWritten(v: string)
  {
    IsChannelName(v) || (|v| >= 1 && v[|v| - 1] == '\n' && IsChannelName(v[..|v| - 1]))
  }

  /** The name validator as written: the 100-character field limit runs
      first, then the non-empty check and the pattern. */
  function ValidateNameAsWritten(v: string): (r: Result<string, Error>)
    ensures r.Ok? <==> |v| <= 100 && NameMatchesAsWritten(v)
    ensures r.Ok? ==> r.value == v
  {
    if |v| > 100 then Err(Raise(ValueError, "String should have at most 100 characters"))
    else if v == [] then Err(Raise(ValueError, "Channel name cannot be blank"))
    else if !NameMatchesAsWritten(v) then Err(Raise(ValueError, "Channel name must be lowercase, use hyphens, and contain no spaces"))
    else Ok(v)
  }

  /** The name validator as intended: exactly the strict names pass. */
  function ValidateName(v: string): (r: Result<string, Error>)
    ensures r.Ok? <==> IsChannelName(v)
    ensures r.Ok? ==> r.value == v
    ensures r.Err? ==> r.error.kind == ValueError
  {
    if |v| > 100 then Err(Raise(ValueError, "String should have at most 100 characters"))
    else if v == [] then Err(Raise(ValueError, "Channel name cannot be blank"))
    else if !IsChannelName(v) then Err(Raise(ValueError, "Channel name must be lowercase, use hyphens, and contain no spaces"))
    else Ok(v)
  }

  /** A name with a trailing newline gets through the validator as written
      and is refused by the intended one. */
  lemma TrailingNewlineAccepted()
    ensures ValidateNameAsWritten("general\n").Ok?
    ensures ValidateName("general\n").Err?
  {
    var v := "general\n";
    assert v[..|v| - 1] == "general";
    assert IsChannelName("general");
    assert !IsNameChar(v[7]);
  }

  /** The two validators differ on exactly the names that end in a newline. */
  lemma {:induction false} ValidatorsAgreeWithoutNewline(v: string)
    requires |v| == 0 || v[|v| - 1] != '\n'
    ensures ValidateNameAsWritten(v) == ValidateName(v)
  {
  }

  predicate Valid(c: DiscordTextChannel)
  {
    c.id > 0 && c.serverId > 0 && IsChannelName(c.name) && (c.categoryId.None? || c.categoryId.value > 0)
  }

  function New(id: int, name: string, serverId: int, categoryId: Option<int> := None, position: int := 0)
    : (r: Result<DiscordTextChannel, Error>)
    ensures r.Ok? <==> id > 0 && serverId > 0 && IsChannelName(name) && (categoryId.None? || categoryId.value > 0)
    ensures r.Ok? ==> r.value == DiscordTextChannel(id, name, serverId, categoryId, position)
    ensures r.Err? ==> r.error.kind == ValueError
  {
    if id <= 0 || serverId <= 0 then Err(Raise(ValueError, "Value must be a positive integer"))
    else if categoryId.Some? && categoryId.value <= 0 then Err(Raise(ValueError, "category_id must be a positive integer"))
    else match ValidateName(name)
      case Err(e) => Err(e)
      case Ok(n) => Ok(DiscordTextChannel(id, n, serverId, categoryId, position))
  }

  /** The API payload: the server id travels as `guild_id`, the category id
      as `parent_id`. */
  datatype ChannelPayload = ChannelPayload(id: int, name: string, guildId: int, parentId: Option<int>, position: int)

  function FromDiscordFormat(p: ChannelPayload): DiscordTextChannel
  {
    DiscordTextChannel(p.id, p.name, p.guildId, p.parentId, p.position)
  }

  function ToDiscordFormat(c: DiscordTextChannel): (p: ChannelPayload)
    ensures p.id == c.id && p.name == c.name && p.guildId == c.serverId && p.parentId == c.categoryId
    ensures p.position == c.position
    ensures FromDiscordFormat(p) == c
  {
    ChannelPayload(c.id, c.name, c.serverId, c.categoryId, c.position)
  }
}
