/**
  The host-side call surface `extendEditorInstance`: each method sends one
  bridge message whose payload is `{src, ...options}`, with `options`
  defaulting to `{}`. A call is modelled as a value and `Send` gives the
  message it hands to `sendBridgeMessage`.
 */
module HostAdapter {
  import opened JsObjects
  import M = Messages
  import D = Dispatch

  /** One call of a host method; `None` stands for omitted options. The
      `setTwitter` method takes no options at all. */
  datatype HostCall =
    | SetMediaImage(src: string, options: Option<Attrs>)
    | SetAudio(src: string, options: Option<Attrs>)
    | SetYoutube(src: string, options: Option<Attrs>)
    | SetVimeo(src: string, options: Option<Attrs>)
    | SetSoundCloud(src: string, options: Option<Attrs>)
    | SetTwitter(src: string)

  /** The enum member whose tag the call's message carries. */
  function ActionOf(c: HostCall): M.ActionType {
    match c
    case SetMediaImage(_, _) => M.SetMediaImage
    case SetAudio(_, _) => M.SetAudio
    case SetYoutube(_, _) => M.SetYoutube
    case SetVimeo(_, _) => M.SetVimeo
    case SetSoundCloud(_, _) => M.SetSoundCloud
    case SetTwitter(_) => M.SetTwitter
  }

  /** The options object spread into the payload, after the `= {}` default. */
  function OptionsOf(c: HostCall): Attrs {
    if c.SetTwitter? then map[]
    else match c.options
      case None => map[]
      case Some(o) => o
  }

  /** The message a host call sends: exactly one, tagged with the call's own
      action, carrying `src` and every option, an option named `src` winning. */
  function Send(c: HostCall): (m: M.Message)
    ensures M.ParseTag(m.tag) == Some(ActionOf(c))
    ensures m.payload.Keys == {"src"} + OptionsOf(c).Keys
    ensures m.payload["src"] == if "src" in OptionsOf(c) then OptionsOf(c)["src"] else Str(c.src)
    ensures forall k :: k in OptionsOf(c) ==> m.payload[k] == OptionsOf(c)[k]
  {
    M.ParseTagOfTag(ActionOf(c));
    M.Message(M.Tag(ActionOf(c)), With("src", Str(c.src), OptionsOf(c)))
  }

  /** `setTwitter` sends exactly `{src}`. */
  lemma TwitterPayload(src: string)
    ensures Send(SetTwitter(src)).payload == map["src" := Str(src)]
  {
    assert With("src", Str(src), map[]) == map["src" := Str(src)] + map[] == map["src" := Str(src)];
  }

  /** Omitting the options is the same as passing `{}`. */
  lemma OmittedOptionsAreEmpty(c: HostCall)
    requires !c.SetTwitter? && c.options.None?
    ensures Send(c) == Send(c.(options := Some(map[])))
  {
  }

  /** End to end, host call then handler: every message the host sends is
      recognised and issues exactly one command, `setAudio` for SetAudio and
      `insertContent` otherwise. */
  lemma SentIsHandled(c: HostCall, twitterHtmlAttributes: Value)
    ensures var o := D.OnBridgeMessage(Send(c), twitterHtmlAttributes);
      && o.handled && |o.commands| == 1
      && (o.commands[0].SetAudio? <==> c.SetAudio?)
  {
    M.ParseTagOfTag(M.SetAudio);
  }

  /** What the handler reads from a sent payload: every key other than
      `src` reads as in the options, and `src` as the caller's unless the
      options name one. */
  lemma PayloadReads(c: HostCall)
    ensures forall k :: k != "src" ==> Get(Send(c).payload, k) == Get(OptionsOf(c), k)
    ensures "src" !in OptionsOf(c) ==> Get(Send(c).payload, "src") == Str(c.src)
  {
  }

  /** End to end: the command carries the caller's `src` unless an option or
      the Twitter style replaced it. */
  lemma {:induction false} SentSrcArrives(c: HostCall, twitterHtmlAttributes: Value)
    requires "src" !in OptionsOf(c)
    requires c.SetTwitter? ==> "src" !in D.TwitterStyle(twitterHtmlAttributes)
    ensures D.OnBridgeMessage(Send(c), twitterHtmlAttributes).commands[0].attrs["src"] == Str(c.src)
  {
    var msg := Send(c);
    PayloadReads(c);
    match c
    case SetMediaImage(_, _) => D.ImageInserted(msg, twitterHtmlAttributes);
    case SetAudio(_, _) => D.AudioSet(msg, twitterHtmlAttributes);
    case SetYoutube(_, _) => D.YoutubeInserted(msg, twitterHtmlAttributes);
    case SetVimeo(_, _) => D.VimeoSoundCloudInserted(msg, twitterHtmlAttributes);
    case SetSoundCloud(_, _) => D.VimeoSoundCloudInserted(msg, twitterHtmlAttributes);
    case SetTwitter(_) => D.TwitterInserted(msg, twitterHtmlAttributes);
  }

  /** End to end: each option the handler reads for the call's action
      arrives unchanged, as `undefined` when not given. */
  lemma {:induction false} SentOptionsArrive(c: HostCall, twitterHtmlAttributes: Value)
    ensures var cmd := D.OnBridgeMessage(Send(c), twitterHtmlAttributes).commands[0];
      forall k :: k in D.ForwardedKeys(ActionOf(c)) ==> k in cmd.attrs && cmd.attrs[k] == Get(OptionsOf(c), k)
  {
    var msg := Send(c);
    PayloadReads(c);
    match c
    case SetMediaImage(_, _) => D.ImageInserted(msg, twitterHtmlAttributes);
    case SetAudio(_, _) => D.AudioSet(msg, twitterHtmlAttributes);
    case SetYoutube(_, _) => D.YoutubeInserted(msg, twitterHtmlAttributes);
    case SetVimeo(_, _) => D.VimeoSoundCloudInserted(msg, twitterHtmlAttributes);
    case SetSoundCloud(_, _) => D.VimeoSoundCloudInserted(msg, twitterHtmlAttributes);
    case SetTwitter(_) => D.TwitterInserted(msg, twitterHtmlAttributes);
  }

  /** End to end: apart from `src`, the keys the handler reads and its fixed
      defaults, no option reaches the command. In particular the `width` and
      `height` a `setYoutube` caller passes are dropped. */
  lemma {:induction false} UnreadOptionsDropped(c: HostCall, twitterHtmlAttributes: Value)
    requires !c.SetTwitter?
    ensures var cmd := D.OnBridgeMessage(Send(c), twitterHtmlAttributes).commands[0];
      cmd.attrs.Keys == {"src"} + D.ForwardedKeys(ActionOf(c)) + D.FixedKeys(ActionOf(c))
  {
    assert D.OnBridgeMessage(Send(c), twitterHtmlAttributes).commands[0]
      == D.CommandFor(ActionOf(c), Send(c).payload, twitterHtmlAttributes);
  }

  /** The `setYoutube` case spelled out: whatever the options, the inserted
      node has no `width` or `height`. */
  lemma YoutubeDropsDimensions(src: string, options: Option<Attrs>, twitterHtmlAttributes: Value)
    ensures var cmd := D.OnBridgeMessage(Send(SetYoutube(src, options)), twitterHtmlAttributes).commands[0];
      "width" !in cmd.attrs && "height" !in cmd.attrs
  {
    UnreadOptionsDropped(SetYoutube(src, options), twitterHtmlAttributes);
  }
}
