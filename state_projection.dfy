/**
  The read-only projection `extendEditorState`: the list of embedded media
  in the document's top-level content, and the node after the selection
  anchor. The document JSON and the selection are inputs; computing them is
  the editor library's business.
 */
module StateProjection {
  import opened JsObjects
  import M = Messages
  import D = Dispatch

  /** A top-level node of `editor.getJSON().content`; absent `attrs` are the
      empty object, which spreads the same way. */
  datatype JsonNode = JsonNode(nodeType: string, attrs: Attrs)

  /** `editor.getJSON()`, whose `content` may be missing. */
  datatype DocJson = DocJson(content: Option<seq<JsonNode>>)

  /** The node `selection.$anchor.nodeAfter`, as far as the projection reads it. */
  datatype PmNode = PmNode(typeName: string, attrs: Attrs, textContent: string)

  /** `editor.state.selection`: its bounds and the node after its anchor. */
  datatype Selection = Selection(from: int, to: int, nodeAfter: Option<PmNode>)

  datatype Position = Position(from: int, to: int)

  datatype SelectedElement = SelectedElement(nodeType: string, attrs: Attrs, text: string, position: Position)

  /** The projected bridge state; `None` is the source's `null`. */
  datatype EditorState = EditorState(currentMedia: seq<Attrs>, selectedElement: Option<SelectedElement>)

  /** The type names the source's filter compares against, case-sensitively. */
  const SourceMediaTypes: seq<string> :=
    ["image", "video", "audio", "youtube", "vimeo", "soundcloud", "twitter"]

  /** The node names of the multimedia extensions (the keys the kit is
      configured with, and the name the Twitter lookup searches for), which
      are the types the handler inserts. */
  const SchemaMediaTypes: seq<string> :=
    ["Image", "Video", "Audio", "Youtube", "Vimeo", "SoundCloud", "Twitter"]

  predicate IsMedia(types: seq<string>, n: JsonNode) {
    n.nodeType in types
  }

  /** `{type: node.type, ...node.attrs}`: an attribute named `type` replaces
      the node's own type in the entry. */
  function MediaEntry(n: JsonNode): (e: Attrs)
    ensures e.Keys == {"type"} + n.attrs.Keys
    ensures e["type"] == if "type" in n.attrs then n.attrs["type"] else Str(n.nodeType)
    ensures forall k :: k in n.attrs ==> e[k] == n.attrs[k]
  {
    With("type", Str(n.nodeType), n.attrs)
  }

  /** `content.filter(node => types.includes(node.type)).map(MediaEntry)`. */
  function MediaOf(types: seq<string>, content: seq<JsonNode>): (r: seq<Attrs>)
    ensures |r| <= |content|
    decreases |content|
  {
    if content == [] then []
    else (if IsMedia(types, content[0]) then [MediaEntry(content[0])] else [])
         + MediaOf(types, content[1..])
  }

  /** `editor.getJSON().content || []`. */
  function ContentOf(doc: DocJson): seq<JsonNode> {
    match doc.content
    case None => []
    case Some(c) => c
  }

  /** `currentMedia` as the source computes it. */
  function CurrentMedia(doc: DocJson): (r: seq<Attrs>)
    ensures |r| <= |ContentOf(doc)|
    ensures doc.content.None? ==> r == []
  {
    MediaOf(SourceMediaTypes, ContentOf(doc))
  }

  /** `currentMedia` with the filter the handler's inserted types need. */
  function CurrentMediaFixed(doc: DocJson): (r: seq<Attrs>)
    ensures |r| <= |ContentOf(doc)|
    ensures doc.content.None? ==> r == []
  {
    MediaOf(SchemaMediaTypes, ContentOf(doc))
  }

  /** `selectedElement`: a summary of the node after the anchor, or `null`. */
  function SelectedElementOf(sel: Selection): (r: Option<SelectedElement>)
    ensures r.None? <==> sel.nodeAfter.None?
    ensures r.Some? ==> r.value.position == Position(sel.from, sel.to)
    ensures r.Some? ==> && r.value.nodeType == sel.nodeAfter.value.typeName
                        && r.value.attrs == sel.nodeAfter.value.attrs
                        && r.value.text == sel.nodeAfter.value.textContent
  {
    match sel.nodeAfter
    case None => None
    case Some(node) =>
      Some(SelectedElement(node.typeName, node.attrs, node.textContent, Position(sel.from, sel.to)))
  }

  /** `extendEditorState`: a function of the document and the selection only,
      so projecting an unchanged editor twice gives the same state. */
  function ExtendEditorState(doc: DocJson, sel: Selection): (s: EditorState)
    ensures |s.currentMedia| <= |ContentOf(doc)|
    ensures s.selectedElement.None? <==> sel.nodeAfter.None?
    ensures s.selectedElement.Some? ==> s.selectedElement.value.position == Position(sel.from, sel.to)
  {
    EditorState(CurrentMedia(doc), SelectedElementOf(sel))
  }

  /** Filtering distributes over concatenation of the content. */
  lemma {:induction false} MediaOfAppend(types: seq<string>, a: seq<JsonNode>, b: seq<JsonNode>)
    ensures MediaOf(types, a + b) == MediaOf(types, a) + MediaOf(types, b)
    decreases |a|
  {
    if a == [] {
      assert a + b == b;
    } else {
      var head := if IsMedia(types, a[0]) then [MediaEntry(a[0])] else [];
      assert (a + b)[0] == a[0];
      assert (a + b)[1..] == a[1..] + b;
      assert MediaOf(types, a + b) == head + MediaOf(types, a[1..] + b);
      MediaOfAppend(types, a[1..], b);
      assert MediaOf(types, a) == head + MediaOf(types, a[1..]);
    }
  }

  /** Every position moved one node to the right. */
  function Shift(s: seq<nat>): (r: seq<nat>)
    ensures |r| == |s|
    ensures forall k :: 0 <= k < |s| ==> r[k] == s[k] + 1
  {
    if s == [] then [] else [s[0] + 1] + Shift(s[1..])
  }

  /** Positions, in increasing order, of the media nodes of `content`. */
  function MediaIndices(types: seq<string>, content: seq<JsonNode>): (ix: seq<nat>)
    ensures forall k :: 0 <= k < |ix| ==> ix[k] < |content|
    decreases |content|
  {
    if content == [] then []
    else (if IsMedia(types, content[0]) then [0] else []) + Shift(MediaIndices(types, content[1..]))
  }

  /** One media position per listed entry. */
  lemma {:induction false} MediaIndicesCount(types: seq<string>, content: seq<JsonNode>)
    ensures |MediaIndices(types, content)| == |MediaOf(types, content)|
    decreases |content|
  {
    if content != [] {
      MediaIndicesCount(types, content[1..]);
    }
  }

  predicate Increasing(s: seq<nat>) {
    forall j, k :: 0 <= j < k < |s| ==> s[j] < s[k]
  }

  /** The media positions strictly increase. */
  lemma {:induction false} MediaIndicesIncrease(types: seq<string>, content: seq<JsonNode>)
    ensures Increasing(MediaIndices(types, content))
    decreases |content|
  {
    if content != [] {
      MediaIndicesIncrease(types, content[1..]);
      var rest := MediaIndices(types, content[1..]);
      var h := if IsMedia(types, content[0]) then 1 else 0;
      var ix := MediaIndices(types, content);
      forall j, k | 0 <= j < k < |ix|
        ensures ix[j] < ix[k]
      {
        assert ix[k] == rest[k - h] + 1;
        if j >= h {
          assert ix[j] == rest[j - h] + 1;
        } else {
          assert ix[j] == 0;
        }
      }
    }
  }

  /** Entry k of `r` is the entry of the media node at position `ix[k]`. */
  predicate EntriesAt(types: seq<string>, content: seq<JsonNode>, ix: seq<nat>, r: seq<Attrs>) {
    forall k :: 0 <= k < |ix| && k < |r| ==>
      ix[k] < |content| && IsMedia(types, content[ix[k]]) && r[k] == MediaEntry(content[ix[k]])
  }

  /** Entry k is the entry of the media node at the k-th media position. */
  lemma {:induction false} MediaIndicesSound(types: seq<string>, content: seq<JsonNode>)
    ensures EntriesAt(types, content, MediaIndices(types, content), MediaOf(types, content))
    decreases |content|
  {
    if content != [] {
      var tail := content[1..];
      MediaIndicesSound(types, tail);
      var rest := MediaIndices(types, tail);
      var later := MediaOf(types, tail);
      var media := IsMedia(types, content[0]);
      var firstIx: seq<nat> := if media then [0] else [];
      var firstEntry := if media then [MediaEntry(content[0])] else [];
      var ix := firstIx + Shift(rest);
      var r := firstEntry + later;
      assert ix == MediaIndices(types, content);
      assert r == MediaOf(types, content);
      forall k | 0 <= k < |ix| && k < |r|
        ensures ix[k] < |content| && IsMedia(types, content[ix[k]]) && r[k] == MediaEntry(content[ix[k]])
      {
        if k >= |firstIx| {
          var j := k - |firstIx|;
          assert ix[k] == Shift(rest)[j] == rest[j] + 1;
          assert r[k] == later[j];
          assert content[ix[k]] == tail[rest[j]];
        }
      }
    }
  }

  /** Every media node's position is listed. */
  lemma {:induction false} MediaIndicesComplete(types: seq<string>, content: seq<JsonNode>)
    ensures forall i :: 0 <= i < |content| && IsMedia(types, content[i]) ==> i in MediaIndices(types, content)
    decreases |content|
  {
    if content != [] {
      var tail := content[1..];
      MediaIndicesComplete(types, tail);
      var rest := MediaIndices(types, tail);
      var h := if IsMedia(types, content[0]) then 1 else 0;
      var ix := MediaIndices(types, content);
      forall i | 0 <= i < |content| && IsMedia(types, content[i])
        ensures i in ix
      {
        if i > 0 {
          assert tail[i - 1] == content[i];
          var k :| 0 <= k < |rest| && rest[k] == i - 1;
          assert ix[h + k] == i;
        } else {
          assert ix[0] == 0;
        }
      }
    }
  }

  /** The filter is an order-preserving selection of exactly the media nodes:
      entry k is the entry of the node at the k-th media position, those
      positions increase, and every media node's position is among them. */
  lemma MediaOfSelects(types: seq<string>, content: seq<JsonNode>)
    ensures var ix := MediaIndices(types, content);
      var r := MediaOf(types, content);
      && |ix| == |r|
      && (forall k :: 0 <= k < |ix| ==> IsMedia(types, content[ix[k]]) && r[k] == MediaEntry(content[ix[k]]))
      && Increasing(ix)
      && (forall i :: 0 <= i < |content| && IsMedia(types, content[i]) ==> i in ix)
  {
    MediaIndicesCount(types, content);
    MediaIndicesIncrease(types, content);
    MediaIndicesSound(types, content);
    MediaIndicesComplete(types, content);
  }

  /** Type names are compared exactly: a node typed "Image" is not listed. */
  lemma CapitalisedTypeNotListed(attrs: Attrs)
    ensures CurrentMedia(DocJson(Some([JsonNode("Image", attrs)]))) == []
  {
  }

  /** Inserting a node the filter rejects leaves the list unchanged. */
  lemma InsertNonMedia(types: seq<string>, before: seq<JsonNode>, n: JsonNode, after: seq<JsonNode>)
    requires !IsMedia(types, n)
    ensures MediaOf(types, before + [n] + after) == MediaOf(types, before + after)
  {
    MediaOfAppend(types, before + [n], after);
    MediaOfAppend(types, before, [n]);
    MediaOfAppend(types, before, after);
    assert MediaOf(types, [n]) == [] by {
      assert [n][1..] == [];
    }
  }

  /** Inserting a node the filter accepts adds exactly its entry, in place. */
  lemma InsertMedia(types: seq<string>, before: seq<JsonNode>, n: JsonNode, after: seq<JsonNode>)
    requires IsMedia(types, n)
    ensures MediaOf(types, before + [n] + after)
            == MediaOf(types, before) + [MediaEntry(n)] + MediaOf(types, after)
  {
    MediaOfAppend(types, before + [n], after);
    MediaOfAppend(types, before, [n]);
    assert MediaOf(types, [n]) == [MediaEntry(n)] by {
      assert [n][1..] == [];
    }
  }

  /** The node types that `insertContent` commands carry are the extensions'
      capitalised names, none of which the source's filter lists. */
  lemma InsertedNodeType(a: M.ActionType, p: Attrs, twitterHtmlAttributes: Value)
    requires a != M.SetAudio
    ensures var cmd := D.CommandFor(a, p, twitterHtmlAttributes);
      && cmd.InsertContent?
      && cmd.nodeType in SchemaMediaTypes
      && cmd.nodeType !in SourceMediaTypes
  {
  }

  /** As written: no node the handler inserts ever shows up in
      `currentMedia`. Wherever among the top-level nodes an inserted
      `insertContent` node lands, the list is what it was without it. */
  lemma {:induction false} InsertedNotListed(a: M.ActionType, p: Attrs, twitterHtmlAttributes: Value,
                                             before: seq<JsonNode>, after: seq<JsonNode>)
    requires a != M.SetAudio
    ensures var cmd := D.CommandFor(a, p, twitterHtmlAttributes);
      && cmd.InsertContent?
      && CurrentMedia(DocJson(Some(before + [JsonNode(cmd.nodeType, cmd.attrs)] + after)))
         == CurrentMedia(DocJson(Some(before + after)))
  {
    var cmd := D.CommandFor(a, p, twitterHtmlAttributes);
    InsertedNodeType(a, p, twitterHtmlAttributes);
    InsertNonMedia(SourceMediaTypes, before, JsonNode(cmd.nodeType, cmd.attrs), after);
  }

  /** Corrected: with the extensions' node names, inserting the node a
      handled message issues adds exactly its entry, at its position. The
      entry keeps the node's capitalised type (`"Youtube"`). */
  lemma {:induction false} InsertedListed(a: M.ActionType, p: Attrs, twitterHtmlAttributes: Value,
                                          before: seq<JsonNode>, after: seq<JsonNode>)
    requires a != M.SetAudio
    ensures var cmd := D.CommandFor(a, p, twitterHtmlAttributes);
      && cmd.InsertContent?
      && var n := JsonNode(cmd.nodeType, cmd.attrs);
      && CurrentMediaFixed(DocJson(Some(before + [n] + after)))
         == CurrentMediaFixed(DocJson(Some(before))) + [MediaEntry(n)] + CurrentMediaFixed(DocJson(Some(after)))
  {
    var cmd := D.CommandFor(a, p, twitterHtmlAttributes);
    InsertedNodeType(a, p, twitterHtmlAttributes);
    InsertMedia(SchemaMediaTypes, before, JsonNode(cmd.nodeType, cmd.attrs), after);
  }
}
