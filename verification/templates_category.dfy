/** A declarative category: a name, an optional position and its channel
    templates in the order given, of any of the four kinds. */
module TemplatesCategory {
  import opened Outcomes
  import opened Exceptions
  import opened Types
  import opened TemplatesChannel

  datatype CategoryTemplate = CategoryTemplate(
    name: string, position: Option<int> := None, channels: seq<ChannelTemplate> := [])

  predicate Valid(c: CategoryTemplate)
  {
    IsCategoryName(c.name) && forall i :: 0 <= i < |c.channels| ==> TemplatesChannel.Valid(c.channels[i])
  }

  /** Builds a category from already-built channel templates; only the
      name can be refused. */
  function New(name: string, position: Option<int> := None, channels: seq<ChannelTemplate> := [])
    : (r: Result<CategoryTemplate, Error>)
    requires forall i :: 0 <= i < |channels| ==> TemplatesChannel.Valid(channels[i])
    ensures r.Ok? <==> 1 <= |name| <= 100
    ensures r.Ok? ==> r.value.name == name && r.value.position == position && r.value.channels == channels
    ensures r.Ok? ==> Valid(r.value)
    ensures r.Err? ==> r.error.kind == ValueError
  {
    if IsCategoryName(name) then Ok(CategoryTemplate(name, position, channels))
    else Err(Raise(ValueError, "validation error for CategoryTemplate"))
  }
}
