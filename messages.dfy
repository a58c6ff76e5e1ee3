/**
  The bridge's message taxonomy: the `HyperMultimediaActionType` enum with its
  wire strings, and a message as it arrives at the handler (a tag string and a
  payload object).
 */
module Messages {
  import opened JsObjects

  /** The six requests the host can send (the commented-out video request of
      the source is not part of the enum). */
  datatype ActionType =
    | SetMediaImage
    | SetAudio
    | SetYoutube
    | SetVimeo
    | SetSoundCloud
    | SetTwitter

  /** The enum's string value, which is what travels as `message.type`. */
  function Tag(a: ActionType): string {
    match a
    case SetMediaImage => "set-media-image"
    case SetAudio => "set-audio"
    case SetYoutube => "set-youtube"
    case SetVimeo => "set-vimeo"
    case SetSoundCloud => "set-soundcloud"
    case SetTwitter => "set-twitter"
  }

  /** Which enum member, if any, a received `message.type` string denotes. */
  function ParseTag(s: string): (r: Option<ActionType>)
    ensures r.Some? ==> Tag(r.value) == s
    ensures r.None? ==> forall a: ActionType :: Tag(a) != s
  {
    if s == "set-media-image" then Some(SetMediaImage)
    else if s == "set-audio" then Some(SetAudio)
    else if s == "set-youtube" then Some(SetYoutube)
    else if s == "set-vimeo" then Some(SetVimeo)
    else if s == "set-soundcloud" then Some(SetSoundCloud)
    else if s == "set-twitter" then Some(SetTwitter)
    else None
  }

  /** Every enum member's wire string is recognised as that member, so no two
      members share a string. */
  lemma ParseTagOfTag(a: ActionType)
    ensures ParseTag(Tag(a)) == Some(a)
  {
  }

  /** A bridge message: the tag is a plain string, so a message whose tag is
      not one of the enum's values can be represented. */
  datatype Message = Message(tag: string, payload: Attrs)
}
