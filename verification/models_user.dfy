/** The first-generation user record (`DiscordUser`) and its Discord API
    payload. The account creation time is left out. */
module ModelsUser {
  import opened Outcomes
  import opened Text
  import opened Exceptions

  datatype DiscordUser = DiscordUser(id: int, username: string, discriminator: string := "0", bot: bool := false)

  /** A positive id, a username of at most 32 characters that is not blank
      once stripped, and a non-empty discriminator. */
  predicate Valid(u: DiscordUser)
  {
    u.id > 0 && |u.username| <= 32 && Strip(u.username) != [] && u.discriminator != []
  }

  function New(id: int, username: string, discriminator: string := "0", bot: bool := false): (r: Result<DiscordUser, Error>)
    ensures r.Ok? <==> id > 0 && |username| <= 32 && !IsBlank(username) && discriminator != []
    ensures r.Ok? ==> r.value == DiscordUser(id, username, discriminator, bot) && Valid(r.value)
    ensures r.Err? ==> r.error.kind == ValueError
  {
    if id <= 0 then Err(Raise(ValueError, "User ID must be a positive integer"))
    else if |username| > 32 then Err(Raise(ValueError, "String should have at most 32 characters"))
    else if Strip(username) == [] then Err(Raise(ValueError, "Username cannot be blank"))
    else if discriminator == [] then Err(Raise(ValueError, "Discriminator cannot be blank"))
    else Ok(DiscordUser(id, username, discriminator, bot))
  }

  /** The defaults: discriminator "0" and not a bot. */
  lemma NewDefaults(id: int, username: string)
    requires id > 0 && |username| <= 32 && !IsBlank(username)
    ensures New(id, username).Ok?
    ensures New(id, username).value.discriminator == "0" && !New(id, username).value.bot
  {
  }

  /** The API payload (its `created_at` rendering is left out). */
  datatype UserPayload = UserPayload(id: int, username: string, discriminator: string, bot: bool)

  function FromDiscordFormat(p: UserPayload): DiscordUser
  {
    DiscordUser(p.id, p.username, p.discriminator, p.bot)
  }

  function ToDiscordFormat(u: DiscordUser): (p: UserPayload)
    ensures p.id == u.id && p.username == u.username && p.discriminator == u.discriminator && p.bot == u.bot
    ensures FromDiscordFormat(p) == u
  {
    UserPayload(u.id, u.username, u.discriminator, u.bot)
  }
}
