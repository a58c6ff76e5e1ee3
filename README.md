# HyperMultimedia bridge model

A Dafny model of the message bridge of a React Native rich-text editor with
multimedia embeds (images, audio, YouTube, Vimeo, SoundCloud, Twitter). The
bridge has three parts, and each is modelled as pure functions with lemmas:

- **Message dispatch** (`onBridgeMessage`), in module `Dispatch`. A closed
  switch over six message tags. Each known tag issues exactly one editor
  command: `insertContent` with a node type and attributes, or `setAudio`. The
  command merges in that tag's fixed defaults, and the handler returns `true`.
  For any other tag it issues nothing and returns `false`.
- **Host adapter** (`extendEditorInstance`), in module `HostAdapter`. One
  host method per action. Each builds one message with payload
  `{src, ...options}`. A call is a `HostCall` value, and `Send` gives the
  message it hands to `sendBridgeMessage`.
- **State projection** (`extendEditorState`), in module `StateProjection`.
  `currentMedia` is a filter and map over the top-level JSON content.
  `selectedElement` summarises the node after the selection anchor, or is
  `null`.

Module `Messages` holds the action enum with its wire strings. Module
`JsObjects` holds the JavaScript semantics the bridge relies on:

- a missing property reads as `undefined`;
- `||` goes by truthiness;
- object spread is a right-biased map merge, so `{a, ...b}` is
  `map[a] + b`.

Node type names are plain case-sensitive strings. The modelled handler's
effect is the list of commands it issues. The one thing the source handler
reads from the editor, the Twitter extension's `HTMLAttributes`, is an input
to it. The projection takes the document JSON and the selection as inputs.

The bridge's own state interface (`HyperMultimediaEditorState`,
src/editor-web/bridges/HyperMultimediaBridge.ts:22-28) types
`currentMedia[].type` as the lowercase union `"image" | ... | "twitter"`.
The handler inserts capitalised types (`"Youtube"`), while the filter
compares against lowercase names, so no inserted node is ever listed (see
Findings).

## Model

| member | source | states |
|---|---|---|
| `JsObjects.With` | src/editor-web/bridges/HyperMultimediaBridge.ts:242 | `{k: v, ...rest}` has the keys `k` and those of `rest`; every key of `rest` keeps its value, including `k` if `rest` has it |
| `Messages.ParseTag` | src/editor-web/bridges/HyperMultimediaBridge.ts:52-60 | a recognised tag string is exactly the wire string of the member it parses to; an unrecognised one is the wire string of no member |
| `Messages.ParseTagOfTag` | src/editor-web/bridges/HyperMultimediaBridge.ts:52-60 | every member's wire string parses back to that member (so the six strings are distinct) |
| `Dispatch.TwitterStyle` | src/editor-web/bridges/HyperMultimediaBridge.ts:219-225 | the spread style is the fields of `HTMLAttributes.style` when both are objects, and empty in every other case (no extension, `HTMLAttributes` not an object, no `style`, or a `style` that is not an object) |
| `Dispatch.OnBridgeMessage` | src/editor-web/bridges/HyperMultimediaBridge.ts:158-235 | returns `true` iff the tag is one of the six enum strings; then it issues exactly one command, otherwise none; the command is `setAudio` exactly for the audio tag |
| `Dispatch.UnknownTagIgnored` | src/editor-web/bridges/HyperMultimediaBridge.ts:231-232 | a tag outside the enum yields `false` and no command |
| `Dispatch.ImageInserted` | src/editor-web/bridges/HyperMultimediaBridge.ts:160-176 | inserts `"Image"` with exactly nine keys: `src`, `alt`, `width` and `height` read from the payload (`undefined` when absent), plus `display="block"`, `margin="0in"`, `clear="none"`, `float="unset"` and `objectFit="contain"` whatever the payload holds |
| `Dispatch.AudioSet` | src/editor-web/bridges/HyperMultimediaBridge.ts:183-187 | issues exactly `setAudio({src, title, controls})` from the payload and no `insertContent` |
| `Dispatch.YoutubeInserted` | src/editor-web/bridges/HyperMultimediaBridge.ts:188-198 | inserts `"Youtube"` with exactly `{src, controls: 1, autoplay: 0}`; no `width` or `height` key |
| `Dispatch.VimeoSoundCloudInserted` | src/editor-web/bridges/HyperMultimediaBridge.ts:200-215 | inserts `"Vimeo"` or `"SoundCloud"`, by tag, with exactly `src`, `width` and `height` from the payload |
| `Dispatch.TwitterInserted` | src/editor-web/bridges/HyperMultimediaBridge.ts:216-229 | inserts `"Twitter"` with keys `{src}` plus the style's keys; every style key keeps its style value, so a style `src` overrides; `src` is the payload's whenever the style has no `src` |
| `Dispatch.TwitterWithoutStyle` | src/editor-web/bridges/HyperMultimediaBridge.ts:219-227 | with no extension, no `HTMLAttributes` object or no `style` in it, the attributes are exactly `{src}` |
| `HostAdapter.Send` | src/editor-web/bridges/HyperMultimediaBridge.ts:237-281 | each call sends one message tagged with its own action; the payload has the keys `src` and every option key; each option keeps its value; `src` is the caller's unless the options contain `src` |
| `HostAdapter.TwitterPayload` | src/editor-web/bridges/HyperMultimediaBridge.ts:275-280 | `setTwitter(src)` sends exactly `{src}` |
| `HostAdapter.OmittedOptionsAreEmpty` | src/editor-web/bridges/HyperMultimediaBridge.ts:239-243 | omitting the options sends the same message as passing `{}` |
| `HostAdapter.SentIsHandled` | src/editor-web/bridges/HyperMultimediaBridge.ts:237-281 | every host call's message is recognised by the handler and issues exactly one command, `setAudio` exactly for `setAudio` calls |
| `HostAdapter.PayloadReads` | src/editor-web/bridges/HyperMultimediaBridge.ts:237-274 | reading any key other than `src` from a sent payload gives the option's value (`undefined` when absent); `src` reads as the caller's unless an option names it |
| `HostAdapter.SentSrcArrives` | src/editor-web/bridges/HyperMultimediaBridge.ts:237-281 | end to end, the command's `src` is the caller's whenever no option and no Twitter style key replaces it |
| `HostAdapter.SentOptionsArrive` | src/editor-web/bridges/HyperMultimediaBridge.ts:237-281 | end to end, every option the handler reads for that action is in the command's attributes with the value the caller gave (`undefined` when not given) |
| `HostAdapter.UnreadOptionsDropped` | src/editor-web/bridges/HyperMultimediaBridge.ts:188-215 | for all calls except `setTwitter`, the command's keys are exactly `src` plus the keys the handler reads plus its fixed defaults; no other option gets through |
| `HostAdapter.YoutubeDropsDimensions` | src/editor-web/bridges/HyperMultimediaBridge.ts:257-262 | `setYoutube` never produces a node with `width` or `height`, whatever options it is given |
| `StateProjection.MediaEntry` | src/editor-web/bridges/HyperMultimediaBridge.ts:306-309 | an entry has `type` and every attribute key; attribute values are kept, and an attribute named `type` replaces the node's type |
| `StateProjection.MediaOf` | src/editor-web/bridges/HyperMultimediaBridge.ts:302-309 | the media list is never longer than the content |
| `StateProjection.CurrentMedia` | src/editor-web/bridges/HyperMultimediaBridge.ts:285-309 | missing content yields an empty list; the list is never longer than the content |
| `StateProjection.SelectedElementOf` | src/editor-web/bridges/HyperMultimediaBridge.ts:287-300 | `null` iff the anchor has no following node; otherwise `position` is the selection's `from`/`to`, and `type`, `attrs` and `text` come from that node |
| `StateProjection.ExtendEditorState` | src/editor-web/bridges/HyperMultimediaBridge.ts:284-315 | the projected state's `selectedElement` is `null` iff there is no node after the anchor, with the selection's position otherwise; `currentMedia` is no longer than the content |
| `StateProjection.MediaOfAppend` | src/editor-web/bridges/HyperMultimediaBridge.ts:302-309 | filtering distributes over concatenation of the content |
| `StateProjection.MediaIndicesCount` | src/editor-web/bridges/HyperMultimediaBridge.ts:302-305 | there is one media position per listed entry |
| `StateProjection.MediaIndicesIncrease` | src/editor-web/bridges/HyperMultimediaBridge.ts:302-305 | the media positions strictly increase (document order is kept) |
| `StateProjection.MediaIndicesSound` | src/editor-web/bridges/HyperMultimediaBridge.ts:302-309 | entry k is the entry of a media node, the one at the k-th media position |
| `StateProjection.MediaIndicesComplete` | src/editor-web/bridges/HyperMultimediaBridge.ts:302-305 | every media node's position is among the listed positions |
| `StateProjection.MediaOfSelects` | src/editor-web/bridges/HyperMultimediaBridge.ts:302-309 | `currentMedia` is exactly the media nodes, in document order, each mapped to `{type, ...attrs}` |
| `StateProjection.CapitalisedTypeNotListed` | src/editor-web/bridges/HyperMultimediaBridge.ts:304 | the comparison is case-sensitive: a node typed `"Image"` is not listed |
| `StateProjection.InsertNonMedia` | src/editor-web/bridges/HyperMultimediaBridge.ts:302-309 | inserting a node the filter rejects, anywhere among the top-level nodes, leaves the media list unchanged |
| `StateProjection.InsertMedia` | src/editor-web/bridges/HyperMultimediaBridge.ts:302-309 | inserting a node the filter accepts adds exactly its entry, between the entries of the nodes before and after it |
| `StateProjection.InsertedNodeType` | src/editor-web/bridges/HyperMultimediaBridge.ts:160-228 | every `insertContent` command the handler issues carries one of the extensions' capitalised node names, and none of these is in the source's filter list |
| `StateProjection.InsertedNotListed` | src/editor-web/bridges/HyperMultimediaBridge.ts:302-305 | as written, inserting the node of any `insertContent` command anywhere among the top-level nodes leaves `currentMedia` unchanged |
| `StateProjection.CurrentMediaFixed` | src/editor-web/bridges/HyperMultimediaBridge.ts:302-305 | corrected filter over the extensions' node names; missing content yields an empty list, never longer than the content |
| `StateProjection.InsertedListed` | src/editor-web/bridges/HyperMultimediaBridge.ts:302-305 | with the corrected filter, inserting that node adds exactly its entry, at its position among the other entries |

## Left out

- `App.tsx` is not part of this model. It holds React Native UI, toolbar wiring and WebView properties. It also writes the editor HTML to a cache file, which is file I/O. Its embed sizes are computed with floating point from the window size.
- `src/editor-web/AdvancedEditor.tsx` is not part of this model. It only registers the bridges with the editor hook.
- The `HyperMultimediaKit.configure` options (lines 102-156) and the `extendCSS` string (lines 317-373) are left out. They are static data consumed by libraries. The Twitter configuration enters only as the `HTMLAttributes` value that dispatch reads.
- The editor's handling of a command is left out. That covers how `insertContent` or `setAudio` change the document, `getJSON`, and computing the node after the anchor. These belong to the editor library, so the document JSON and the selection are inputs. The findings lemmas assume an inserted node reaches the top-level JSON with the command's type and attributes.
- The extension lookup `extensions.find(ext => ext.name === "Twitter")?.options?.HTMLAttributes` is not modelled as a search. Its result is an input: `Undefined` when no extension, or no options, is found.
- The bridge transport, message ordering and asynchronous delivery are left out. They are owned by the editor framework.
- `Dispatch.TwitterStyle`: a Twitter `style` given as a string yields no attributes, where JavaScript would spread its characters under index keys (see the next line).
- `JsObjects.Spread`: spreading a string style would yield its characters under index keys in JavaScript. The model spreads only objects. Any other style value contributes nothing.
- Numbers are modelled as unbounded integers, so `NaN` truthiness and fractional sizes are not modelled. The bridge only copies numbers and never computes with them.
- A message with a known tag but a payload of `undefined` or `null` cannot be represented: a payload is always an object. In the source, destructuring such a payload throws. The message type of the source and the host adapter never produce one.
- Objects are maps, so the key order of JavaScript objects is not modelled. A JSON node without `attrs` counts as having empty attributes, which spreads the same way.

## Findings

| source | as written | input that shows it | evidently intended | confidence | as-written member | corrected member |
|---|---|---|---|---|---|---|
| src/editor-web/bridges/HyperMultimediaBridge.ts:302-305 | the media filter compares node types against lowercase names (`"image"`, `"youtube"`, ...) | dispatch `set-youtube` with `src` `"https://youtu.be/abc"`: the handler inserts type `"Youtube"` (line 191), and the projection of a document holding just that node has an empty `currentMedia` | the projection lists the node types the handler inserts (`"Image"`, `"Youtube"`, `"Vimeo"`, `"SoundCloud"`, `"Twitter"`; line 220 looks the Twitter extension up by that exact name). The corrected filter keeps the entry's capitalised type, which the lowercase union of line 23 does not admit; mapping the type to lowercase is not modelled | medium, not executed (assumes the editor reports the inserted type name unchanged) | `StateProjection.InsertedNotListed` | `StateProjection.InsertedListed` |
