/** The first-generation category record (`DiscordCategory`) and its Discord
    API payload. The clock-stamped `created_at` is left out. */
module ModelsCategory {
  import opened Outcomes
  import opened Text
  import opened Exceptions

  datatype DiscordCategory = DiscordCategory(id: int, name: string, serverId: int, position: int := 0)

  /** Positive ids, a name of at most 100 characters that is not blank once
      stripped. */
  predicate Valid(c: DiscordCategory)
  {
    c.id > 0 && c.serverId > 0 && |c.name| <= 100 && Strip(c.name) != []
  }

  function New(id: int, name: string, serverId: int, position: int := 0): (r: Result<DiscordCategory, Error>)
    ensures r.Ok? <==> id > 0 && serverId > 0 && |name| <= 100 && !IsBlank(name)
    ensures r.Ok? ==> r.value == DiscordCategory(id, name, serverId, position)
    ensures r.Err? ==> r.error.kind == ValueError
  {
    if id <= 0 || serverId <= 0 then Err(Raise(ValueError, "Value must be a positive integer"))
    else if |name| > 100 then Err(Raise(ValueError, "String should have at most 100 characters"))
    else if Strip(name) == [] then Err(Raise(ValueError, "Category name cannot be blank"))
    else Ok(DiscordCategory(id, name, serverId, position))
  }

  /** The API payload: the server id travels as `guild_id`. */
  datatype CategoryPayload = CategoryPayload(id: int, name: string, guildId: int, position: int)

  function FromDiscordFormat(p: CategoryPayload): DiscordCategory
  {
    DiscordCategory(p.id, p.name, p.guildId, p.position)
  }

  /** Every field is carried over unchanged, so the record can be rebuilt
      from its payload. */
  function ToDiscordFormat(c: DiscordCategory): (p: CategoryPayload)
    ensures p.id == c.id && p.name == c.name && p.guildId == c.serverId && p.position == c.position
    ensures FromDiscordFormat(p) == c
  {
    CategoryPayload(c.id, c.name, c.serverId, c.position)
  }

  /** Distinct categories give distinct payloads. */
  lemma ToDiscordFormatInjective(a: DiscordCategory, b: DiscordCategory)
    requires ToDiscordFormat(a) == ToDiscordFormat(b)
    ensures a == b
  {
    assert FromDiscordFormat(ToDiscordFormat(a)) == a;
  }
}
