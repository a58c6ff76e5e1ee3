/**
  The document-side handler `onBridgeMessage`: each recognised message becomes
  exactly one editor command, built from the payload and that message's fixed
  defaults; an unrecognised tag issues nothing and reports `false`. What the
  editor then does with a command belongs to the editor library.
 */
module Dispatch {
  import opened JsObjects
  import M = Messages

  /** An editor command the handler issues: `editor.commands.insertContent`
      with a node type and attributes, or `editor.commands.setAudio`. */
  datatype Command =
    | InsertContent(nodeType: string, attrs: Attrs)
    | SetAudio(attrs: Attrs)

  /** The handler's result: its boolean return value and the commands it
      issued, in order. */
  datatype Outcome = Outcome(handled: bool, commands: seq<Command>)

  /** The spread `...twitterConfig.style`, where `twitterConfig` is the Twitter
      extension's `options.HTMLAttributes` (`undefined` when the extension or
      its options are absent) defaulted by `|| {}`. */
  function TwitterStyle(htmlAttributes: Value): (style: Attrs)
    ensures !htmlAttributes.Obj? ==> style == map[]
    ensures htmlAttributes.Obj? && "style" !in htmlAttributes.fields ==> style == map[]
    ensures htmlAttributes.Obj? && "style" in htmlAttributes.fields
            && htmlAttributes.fields["style"].Obj?
            ==> style == htmlAttributes.fields["style"].fields
    ensures htmlAttributes.Obj? && "style" in htmlAttributes.fields
            && !htmlAttributes.fields["style"].Obj?
            ==> style == map[]
  {
    var twitterConfig := if Truthy(htmlAttributes) then htmlAttributes else Obj(map[]);
    match twitterConfig
    case Obj(config) => Spread(Get(config, "style"))
    case _ => map[]
  }

  /** The payload keys the handler reads for each action besides `src`. */
  function ForwardedKeys(a: M.ActionType): set<string> {
    match a
    case SetMediaImage => {"alt", "width", "height"}
    case SetAudio => {"title", "controls"}
    case SetYoutube => {}
    case SetVimeo => {"width", "height"}
    case SetSoundCloud => {"width", "height"}
    case SetTwitter => {}
  }

  /** The attribute keys the handler fixes for each action (the Twitter style
      keys come from configuration and are not listed). */
  function FixedKeys(a: M.ActionType): set<string> {
    match a
    case SetMediaImage => {"display", "margin", "clear", "float", "objectFit"}
    case SetYoutube => {"controls", "autoplay"}
    case _ => {}
  }

  /** The command one recognised action issues for a payload. */
  function CommandFor(a: M.ActionType, p: Attrs, twitterHtmlAttributes: Value): Command {
    match a
    case SetMediaImage =>
      InsertContent("Image", map[
        "src" := Get(p, "src"),
        "alt" := Get(p, "alt"),
        "width" := Get(p, "width"),
        "height" := Get(p, "height"),
        "display" := Str("block"),
        "margin" := Str("0in"),
        "clear" := Str("none"),
        "float" := Str("unset"),
        "objectFit" := Str("contain")])
    case SetAudio =>
      SetAudio(map["src" := Get(p, "src"), "title" := Get(p, "title"), "controls" := Get(p, "controls")])
    case SetYoutube =>
      InsertContent("Youtube", map["src" := Get(p, "src"), "controls" := Num(1), "autoplay" := Num(0)])
    case SetVimeo =>
      InsertContent("Vimeo", map["src" := Get(p, "src"), "width" := Get(p, "width"), "height" := Get(p, "height")])
    case SetSoundCloud =>
      InsertContent("SoundCloud", map["src" := Get(p, "src"), "width" := Get(p, "width"), "height" := Get(p, "height")])
    case SetTwitter =>
      InsertContent("Twitter", With("src", Get(p, "src"), TwitterStyle(twitterHtmlAttributes)))
  }

  /** `onBridgeMessage`: a closed switch over the message tag. */
  function OnBridgeMessage(msg: M.Message, twitterHtmlAttributes: Value): (o: Outcome)
    ensures o.handled <==> M.ParseTag(msg.tag).Some?
    ensures o.handled <==> exists a: M.ActionType :: M.Tag(a) == msg.tag
    ensures |o.commands| == if o.handled then 1 else 0
    ensures o.handled ==> (o.commands[0].SetAudio? <==> msg.tag == M.Tag(M.SetAudio))
  {
    match M.ParseTag(msg.tag)
    case None => Outcome(false, [])
    case Some(a) =>
      M.ParseTagOfTag(M.SetAudio);
      Outcome(true, [CommandFor(a, msg.payload, twitterHtmlAttributes)])
  }

  /** A tag outside the enum changes nothing and reports `false`. */
  lemma UnknownTagIgnored(msg: M.Message, twitterHtmlAttributes: Value)
    requires forall a: M.ActionType :: M.Tag(a) != msg.tag
    ensures OnBridgeMessage(msg, twitterHtmlAttributes) == Outcome(false, [])
  {
  }

  /** SetMediaImage inserts an "Image" whose attributes are exactly the four
      payload fields and five fixed presentation defaults; since the fixed
      keys are not read from the payload, no payload can displace them. */
  lemma ImageInserted(msg: M.Message, twitterHtmlAttributes: Value)
    requires msg.tag == M.Tag(M.SetMediaImage)
    ensures var o := OnBridgeMessage(msg, twitterHtmlAttributes);
      && o.handled && |o.commands| == 1
      && o.commands[0].InsertContent? && o.commands[0].nodeType == "Image"
      && var attrs := o.commands[0].attrs;
      && attrs.Keys == {"src", "alt", "width", "height", "display", "margin", "clear", "float", "objectFit"}
      && attrs["src"] == Get(msg.payload, "src")
      && attrs["alt"] == Get(msg.payload, "alt")
      && attrs["width"] == Get(msg.payload, "width")
      && attrs["height"] == Get(msg.payload, "height")
      && attrs["display"] == Str("block")
      && attrs["margin"] == Str("0in")
      && attrs["clear"] == Str("none")
      && attrs["float"] == Str("unset")
      && attrs["objectFit"] == Str("contain")
  {
  }

  /** SetAudio goes through the editor's own `setAudio` command, never
      `insertContent`, with exactly `src`, `title` and `controls`. */
  lemma AudioSet(msg: M.Message, twitterHtmlAttributes: Value)
    requires msg.tag == M.Tag(M.SetAudio)
    ensures var o := OnBridgeMessage(msg, twitterHtmlAttributes);
      && o.handled
      && o.commands == [SetAudio(map[
           "src" := Get(msg.payload, "src"),
           "title" := Get(msg.payload, "title"),
           "controls" := Get(msg.payload, "controls")])]
  {
  }

  /** SetYoutube inserts a "Youtube" with exactly `src` and the fixed playback
      defaults: payload `width` and `height` never reach the node. */
  lemma YoutubeInserted(msg: M.Message, twitterHtmlAttributes: Value)
    requires msg.tag == M.Tag(M.SetYoutube)
    ensures var o := OnBridgeMessage(msg, twitterHtmlAttributes);
      && o.handled
      && o.commands == [InsertContent("Youtube", map[
           "src" := Get(msg.payload, "src"), "controls" := Num(1), "autoplay" := Num(0)])]
      && "width" !in o.commands[0].attrs && "height" !in o.commands[0].attrs
  {
  }

  /** SetVimeo and SetSoundCloud insert their node type with exactly `src`,
      `width` and `height` from the payload. */
  lemma VimeoSoundCloudInserted(msg: M.Message, twitterHtmlAttributes: Value)
    requires msg.tag == M.Tag(M.SetVimeo) || msg.tag == M.Tag(M.SetSoundCloud)
    ensures var o := OnBridgeMessage(msg, twitterHtmlAttributes);
      && o.handled
      && o.commands == [InsertContent(
           if msg.tag == M.Tag(M.SetVimeo) then "Vimeo" else "SoundCloud",
           map["src" := Get(msg.payload, "src"),
               "width" := Get(msg.payload, "width"),
               "height" := Get(msg.payload, "height")])]
  {
  }

  /** SetTwitter inserts a "Twitter" whose attributes are `src` merged with the
      extension's configured style, the style's keys winning; `src` survives
      whenever the style has no `src` key of its own. */
  lemma TwitterInserted(msg: M.Message, twitterHtmlAttributes: Value)
    requires msg.tag == M.Tag(M.SetTwitter)
    ensures var o := OnBridgeMessage(msg, twitterHtmlAttributes);
      && var style := TwitterStyle(twitterHtmlAttributes);
      && o.handled && |o.commands| == 1
      && o.commands[0].InsertContent? && o.commands[0].nodeType == "Twitter"
      && var attrs := o.commands[0].attrs;
      && attrs.Keys == {"src"} + style.Keys
      && (forall k :: k in style ==> attrs[k] == style[k])
      && ("src" !in style ==> attrs["src"] == Get(msg.payload, "src"))
  {
  }

  /** Without a configured Twitter style object (no extension, no
      `HTMLAttributes`, or no `style` in it) the tweet's attributes are just
      `{src}`. */
  lemma TwitterWithoutStyle(msg: M.Message, twitterHtmlAttributes: Value)
    requires msg.tag == M.Tag(M.SetTwitter)
    requires !twitterHtmlAttributes.Obj? || "style" !in twitterHtmlAttributes.fields
    ensures OnBridgeMessage(msg, twitterHtmlAttributes).commands
            == [InsertContent("Twitter", map["src" := Get(msg.payload, "src")])]
  {
    var src := map["src" := Get(msg.payload, "src")];
    assert TwitterStyle(twitterHtmlAttributes) == map[];
    assert With("src", Get(msg.payload, "src"), map[]) == src + map[] == src;
  }
}
