/** Declarative channel templates: a closed sum of four channel kinds, each
    carrying its own kind tag and bounded settings. Templates are values, so
    they cannot change after construction. */
module TemplatesChannel {
  import opened Outcomes
  import opened Exceptions
  import opened Types

  datatype ChannelType = Text | Voice | Forum | Announcement

  /** The string value of each kind. */
  function TypeTag(t: ChannelType): (tag: string)
    ensures tag in {"text", "voice", "forum", "announcement"}
  {
    match t
    case Text => "text"
    case Voice => "voice"
    case Forum => "forum"
    case Announcement => "announcement"
  }

  /** Reads a kind back from its tag: every kind round-trips, and no other
      string names a kind. */
  function TypeFromTag(tag: string): (r: Option<ChannelType>)
    ensures r.Some? ==> TypeTag(r.value) == tag
    ensures forall t :: TypeTag(t) == tag ==> r == Some(t)
  {
    if tag == "text" then Some(Text)
    else if tag == "voice" then Some(Voice)
    else if tag == "forum" then Some(Forum)
    else if tag == "announcement" then Some(Announcement)
    else None
  }

  datatype ChannelTemplate =
    | TextChannelTemplate(name: string, topic: Option<string> := None, position: Option<int> := None,
                          slowmodeSeconds: int := 0, nsfw: bool := false)
    | VoiceChannelTemplate(name: string, topic: Option<string> := None, position: Option<int> := None,
                           bitrate: int := 64000, userLimit: int := 0)
    | ForumChannelTemplate(name: string, topic: Option<string> := None, position: Option<int> := None,
                           defaultThreadSlowmode: int := 0)
    | AnnouncementChannelTemplate(name: string, topic: Option<string> := None, position: Option<int> := None)

  /** The fixed kind tag of each variant. */
  function Type(t: ChannelTemplate): (k: ChannelType)
    ensures k == Text <==> t.TextChannelTemplate?
    ensures k == Voice <==> t.VoiceChannelTemplate?
    ensures k == Forum <==> t.ForumChannelTemplate?
    ensures k == Announcement <==> t.AnnouncementChannelTemplate?
  {
    match t
    case TextChannelTemplate(_, _, _, _, _) => Text
    case VoiceChannelTemplate(_, _, _, _, _) => Voice
    case ForumChannelTemplate(_, _, _, _) => Forum
    case AnnouncementChannelTemplate(_, _, _) => Announcement
  }

  predicate ValidTopic(topic: Option<string>)
  {
    topic.None? || |topic.value| <= 1024
  }

  /** The fields every template shares: a channel name and a topic of at
      most 1024 characters. */
  predicate ValidBase(name: string, topic: Option<string>)
  {
    IsChannelName(name) && ValidTopic(topic)
  }

  predicate Valid(t: ChannelTemplate)
  {
    ValidBase(t.name, t.topic)
    && match t
       case TextChannelTemplate(_, _, _, slowmode, _) => 0 <= slowmode <= 21600
       case VoiceChannelTemplate(_, _, _, bitrate, userLimit) => 8000 <= bitrate <= 384000 && 0 <= userLimit <= 99
       case ForumChannelTemplate(_, _, _, slowmode) => 0 <= slowmode <= 21600
       case AnnouncementChannelTemplate(_, _, _) => true
  }

  function Invalid(model: string): Error
  {
    Raise(ValueError, "validation error for " + model)
  }

  function NewText(name: string, topic: Option<string> := None, position: Option<int> := None,
                   slowmodeSeconds: int := 0, nsfw: bool := false): (r: Result<ChannelTemplate, Error>)
    ensures r.Ok? <==> ValidateChannelName(name).Ok? && ValidTopic(topic) && 0 <= slowmodeSeconds <= 21600
    ensures r.Ok? ==> r.value == TextChannelTemplate(name, topic, position, slowmodeSeconds, nsfw)
    ensures r.Ok? ==> Valid(r.value) && Type(r.value) == Text
    ensures r.Err? ==> r.error.kind == ValueError
  {
    var t := TextChannelTemplate(name, topic, position, slowmodeSeconds, nsfw);
    if Valid(t) then Ok(t) else Err(Invalid("TextChannelTemplate"))
  }

  function NewVoice(name: string, topic: Option<string> := None, position: Option<int> := None,
                    bitrate: int := 64000, userLimit: int := 0): (r: Result<ChannelTemplate, Error>)
    ensures r.Ok? <==> ValidateChannelName(name).Ok? && ValidTopic(topic)
                       && 8000 <= bitrate <= 384000 && 0 <= userLimit <= 99
    ensures r.Ok? ==> r.value == VoiceChannelTemplate(name, topic, position, bitrate, userLimit)
    ensures r.Ok? ==> Valid(r.value) && Type(r.value) == Voice
    ensures r.Err? ==> r.error.kind == ValueError
  {
    var t := VoiceChannelTemplate(name, topic, position, bitrate, userLimit);
    if Valid(t) then Ok(t) else Err(Invalid("VoiceChannelTemplate"))
  }

  function NewForum(name: string, topic: Option<string> := None, position: Option<int> := None,
                    defaultThreadSlowmode: int := 0): (r: Result<ChannelTemplate, Error>)
    ensures r.Ok? <==> ValidateChannelName(name).Ok? && ValidTopic(topic) && 0 <= defaultThreadSlowmode <= 21600
    ensures r.Ok? ==> r.value == ForumChannelTemplate(name, topic, position, defaultThreadSlowmode)
    ensures r.Ok? ==> Valid(r.value) && Type(r.value) == Forum
    ensures r.Err? ==> r.error.kind == ValueError
  {
    var t := ForumChannelTemplate(name, topic, position, defaultThreadSlowmode);
    if Valid(t) then Ok(t) else Err(Invalid("ForumChannelTemplate"))
  }

  function NewAnnouncement(name: string, topic: Option<string> := None, position: Option<int> := None)
    : (r: Result<ChannelTemplate, Error>)
    ensures r.Ok? <==> ValidateChannelName(name).Ok? && ValidTopic(topic)
    ensures r.Ok? ==> r.value == AnnouncementChannelTemplate(name, topic, position)
    ensures r.Ok? ==> Valid(r.value) && Type(r.value) == Announcement
    ensures r.Err? ==> r.error.kind == ValueError
  {
    var t := AnnouncementChannelTemplate(name, topic, position);
    if Valid(t) then Ok(t) else Err(Invalid("AnnouncementChannelTemplate"))
  }

  /** Left-out settings take their declared defaults: no topic, no
      position, no slowmode, not NSFW, 64 kbit/s and no user limit. */
  lemma Defaults(name: string)
    requires IsChannelName(name)
    ensures NewText(name) == Ok(TextChannelTemplate(name, None, None, 0, false))
    ensures NewVoice(name) == Ok(VoiceChannelTemplate(name, None, None, 64000, 0))
    ensures NewForum(name) == Ok(ForumChannelTemplate(name, None, None, 0))
  {
  }
}
