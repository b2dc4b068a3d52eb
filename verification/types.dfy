/** The stand-alone field validators shared by the record types: each
    returns its input unchanged or fails with a ValueError. */
module Types {
  import opened Outcomes
  import opened Text
  import opened Exceptions

  /** 2**63 - 1, the largest signed 64-bit integer. */
  const MaxSnowflake: int := 0x7FFF_FFFF_FFFF_FFFF

  predicate IsSnowflake(v: int)
  {
    1 <= v <= MaxSnowflake
  }

  function ValidateDiscordId(v: int): (r: Result<int, Error>)
    ensures r.Ok? <==> IsSnowflake(v)
    ensures r.Ok? ==> r.value == v
    ensures r.Err? ==> r.error.kind == ValueError && r.error.message == "Invalid Discord ID: " + IntToString(v)
  {
    if v <= 0 || v > MaxSnowflake then Err(Raise(ValueError, "Invalid Discord ID: " + IntToString(v)))
    else Ok(v)
  }

  /** The characters a channel (or thread) name may contain: ASCII letters of
      either case, digits, '-', '_' and the space. */
  predicate IsChannelNameChar(c: char)
  {
    IsLowerAlpha(c) || IsUpperAlpha(c) || IsDigit(c) || c == '-' || c == '_' || c == ' '
  }

  predicate IsChannelName(v: string)
  {
    1 <= |v| <= 100 && forall i :: 0 <= i < |v| ==> IsChannelNameChar(v[i])
  }

  /** Digits and dashes make a channel name, up to 100 of them. */
  lemma DigitsAndDashes(v: string)
    requires 1 <= |v| <= 100
    requires forall i :: 0 <= i < |v| ==> IsDigit(v[i]) || v[i] == '-'
    ensures IsChannelName(v)
  {
  }

  /** The first character of `v` that is not allowed, if any. */
  function FirstBadChar(v: string): (r: Option<nat>)
    ensures r.None? <==> forall i :: 0 <= i < |v| ==> IsChannelNameChar(v[i])
    ensures r.Some? ==> r.value < |v| && !IsChannelNameChar(v[r.value])
    ensures r.Some? ==> forall i :: 0 <= i < r.value ==> IsChannelNameChar(v[i])
  {
    if v == [] then None
    else if !IsChannelNameChar(v[0]) then Some(0)
    else match FirstBadChar(v[1..])
      case None => None
      case Some(i) => Some(i + 1)
  }

  /** The length checks run first (empty, then too long), then the character
      check. */
  function ValidateChannelName(v: string): (r: Result<string, Error>)
    ensures r.Ok? <==> IsChannelName(v)
    ensures r.Ok? ==> r.value == v
    ensures r.Err? ==> r.error.kind == ValueError
    ensures v == [] ==> r == Err(Raise(ValueError, "Channel name cannot be empty"))
    ensures |v| > 100 ==> r == Err(Raise(ValueError, "Channel name max 100 characters"))
  {
    if v == [] then Err(Raise(ValueError, "Channel name cannot be empty"))
    else if |v| > 100 then Err(Raise(ValueError, "Channel name max 100 characters"))
    else if FirstBadChar(v).Some? then Err(Raise(ValueError, "Channel name must be alphanumeric with -, _, or spaces"))
    else Ok(v)
  }

  predicate IsUsername(v: string)
  {
    2 <= |v| <= 32
  }

  function ValidateUsername(v: string): (r: Result<string, Error>)
    ensures r.Ok? <==> IsUsername(v)
    ensures r.Ok? ==> r.value == v
    ensures r.Err? ==> r.error.kind == ValueError
  {
    if !(2 <= |v| <= 32) then Err(Raise(ValueError, "Username must be 2-32 characters")) else Ok(v)
  }

  predicate IsMessageContent(v: string)
  {
    |v| <= 2000
  }

  function ValidateMessageContent(v: string): (r: Result<string, Error>)
    ensures r.Ok? <==> IsMessageContent(v)
    ensures r.Ok? ==> r.value == v
    ensures r.Err? ==> r.error.kind == ValueError
  {
    if |v| > 2000 then Err(Raise(ValueError, "Message content max 2000 characters")) else Ok(v)
  }

  /** The category-name type the record modules use: 1..100 characters of any
      kind. */
  predicate IsCategoryName(v: string)
  {
    1 <= |v| <= 100
  }

  /** Upper-case letters and spaces pass the channel-name check. */
  lemma MixedCaseNamesAccepted()
    ensures ValidateChannelName("General Chat").Ok?
  {
    assert IsChannelName("General Chat");
  }
}
