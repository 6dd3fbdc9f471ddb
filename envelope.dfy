/**
 * Extraction of the tool-call envelope from a model reply.
 *
 * `ParseToolCall` is the agent's parser (agent.py): the first `<tool>…</tool>` region, decoded
 * as it is. `ParseToolCallLenient` is the variant in test_parser.py: the tagged region is
 * stripped first, and when there is no tag pair a lazy brace span is tried.
 */
module Envelope {
  import opened Wrappers
  import opened Text
  import opened JsonValues

  const OpenTag: string := "<tool>"
  const CloseTag: string := "</tool>"
  const ToolKey: string := "\"tool\""
  const ActionKey: string := "\"action\""

  /** The group of the first match of `<tool>(.*?)</tool>` (with DOTALL), as a pair of indices:
      the region starts right after the first `<tool>` and ends at the first `</tool>` after it. */
  function TagSpan(text: string): (r: Option<(nat, nat)>)
    ensures r.Some? ==>
      var (a, b) := r.value;
      |OpenTag| <= a <= b && OccursAt(text, OpenTag, a - |OpenTag|) && OccursAt(text, CloseTag, b)
      && (forall k :: 0 <= k < a - |OpenTag| ==> !OccursAt(text, OpenTag, k))
      && (forall k :: a <= k < b ==> !OccursAt(text, CloseTag, k))
    ensures r.None? ==>
      forall i: nat, j: nat :: OccursAt(text, OpenTag, i) && i + |OpenTag| <= j ==> !OccursAt(text, CloseTag, j)
  {
    match FindFrom(text, OpenTag, 0)
    case None => None
    case Some(i) =>
      match FindFrom(text, CloseTag, i + |OpenTag|)
      case None => None
      case Some(j) => Some((i + |OpenTag|, j))
  }

  /** The text between the tags, when there is a tag pair. */
  function TagRegion(text: string): string
    requires TagSpan(text).Some?
  {
    var (a, b) := TagSpan(text).value;
    text[a..b]
  }

  /** agent.py `_parse_tool_call`: decode exactly the tagged region; no tag pair or a decoding
      failure gives None, and there is no other way to find a call. */
  function ParseToolCall(text: string, codec: Codec): (r: Option<Json>)
    ensures TagSpan(text).None? ==> r.None?
    ensures TagSpan(text).Some? ==> (r.Some? <==> codec.decode(TagRegion(text)).Ok?)
    ensures r.Some? ==> codec.decode(TagRegion(text)) == Ok(r.value)
  {
    if TagSpan(text).Some? then TryLoads(codec, TagRegion(text)) else None
  }

  /** The four positions of the first match of `\{.*?"tool".*?"action".*?\}`: the opening brace,
      the `"tool"` key, the `"action"` key and the closing brace. */
  predicate LazyChain(text: string, i: nat, t: nat, a: nat, c: nat) {
    OccursAt(text, "{", i) && i < t && OccursAt(text, ToolKey, t)
    && t + |ToolKey| <= a && OccursAt(text, ActionKey, a)
    && a + |ActionKey| <= c && OccursAt(text, "}", c)
  }

  /** The lazy regex picks, in turn, the first `{`, the first `"tool"` after it, the first
      `"action"` after that and the first `}` after that; when that chain breaks there is no
      match from any starting brace. */
  function BraceMatch(text: string): (r: Option<(nat, nat, nat, nat)>)
    ensures r.Some? ==>
      var (i, t, a, c) := r.value;
      LazyChain(text, i, t, a, c)
      && (forall k :: 0 <= k < i ==> !OccursAt(text, "{", k))
      && (forall k :: i < k < t ==> !OccursAt(text, ToolKey, k))
      && (forall k :: t + |ToolKey| <= k < a ==> !OccursAt(text, ActionKey, k))
      && (forall k :: a + |ActionKey| <= k < c ==> !OccursAt(text, "}", k))
    ensures r.None? ==> forall i: nat, t: nat, a: nat, c: nat :: !LazyChain(text, i, t, a, c)
  {
    match FindFrom(text, "{", 0)
    case None => None
    case Some(i) =>
      match FindFrom(text, ToolKey, i + 1)
      case None => None
      case Some(t) =>
        match FindFrom(text, ActionKey, t + |ToolKey|)
        case None => None
        case Some(a) =>
          match FindFrom(text, "}", a + |ActionKey|)
          case None => None
          case Some(c) => Some((i, t, a, c))
  }

  /** The text the brace fallback hands to the decoder. */
  function BraceCandidate(text: string): string
    requires BraceMatch(text).Some?
  {
    var (i, _, _, c) := BraceMatch(text).value;
    text[i..c + 1]
  }

  /** test_parser.py `parse_tool_call`. With a tag pair, only the stripped region is decoded and a
      failure is final; without one, the lazy brace span is decoded; otherwise None. */
  function ParseToolCallLenient(text: string, codec: Codec): (r: Option<Json>)
    ensures TagSpan(text).Some? ==> r == TryLoads(codec, Strip(TagRegion(text)))
    ensures TagSpan(text).None? && BraceMatch(text).Some? ==> r == TryLoads(codec, BraceCandidate(text))
    ensures TagSpan(text).None? && BraceMatch(text).None? ==> r.None?
  {
    if TagSpan(text).Some? then TryLoads(codec, Strip(TagRegion(text)))
    else if BraceMatch(text).Some? then TryLoads(codec, BraceCandidate(text))
    else None
  }

  /** An envelope surrounded by prose: the tag span is exactly the body, whatever follows. */
  lemma TagSpanAmidProse(prose: string, body: string, rest: string)
    requires '<' !in prose && '<' !in body
    ensures var text := prose + OpenTag + body + CloseTag + rest;
      TagSpan(text) == Some((|prose| + |OpenTag|, |prose| + |OpenTag| + |body|))
      && TagRegion(text) == body
  {
    var text := prose + OpenTag + body + CloseTag + rest;
    var a := |prose| + |OpenTag|;
    var b := a + |body|;
    FirstOpenTag(prose, body, rest);
    FirstCloseTag(prose, body, rest);
    assert text[a..b] == body;
  }

  /** The first `<tool>` of such a text ends the prose. */
  lemma FirstOpenTag(prose: string, body: string, rest: string)
    requires '<' !in prose
    ensures FindFrom(prose + OpenTag + body + CloseTag + rest, OpenTag, 0) == Some(|prose|)
  {
    var text := prose + OpenTag + body + CloseTag + rest;
    assert text[|prose|..|prose| + |OpenTag|] == OpenTag;
    forall k | 0 <= k < |prose| ensures !OccursAt(text, OpenTag, k) {
      assert text[k] == prose[k];
      NotOccursAt(text, OpenTag, k);
    }
    FindFromIs(text, OpenTag, 0, |prose|);
  }

  /** The first `</tool>` after the opening tag ends the body. */
  lemma FirstCloseTag(prose: string, body: string, rest: string)
    requires '<' !in body
    ensures var a := |prose| + |OpenTag|;
      FindFrom(prose + OpenTag + body + CloseTag + rest, CloseTag, a) == Some(a + |body|)
  {
    var text := prose + OpenTag + body + CloseTag + rest;
    var a := |prose| + |OpenTag|;
    var b := a + |body|;
    assert text[b..b + |CloseTag|] == CloseTag;
    forall k | a <= k < b ensures !OccursAt(text, CloseTag, k) {
      assert text[k] == body[k - a];
      NotOccursAt(text, CloseTag, k);
    }
    FindFromIs(text, CloseTag, a, b);
  }

  /** The agent's parser on an envelope amid prose decodes exactly the body. */
  lemma ParseToolCallAmidProse(prose: string, body: string, rest: string, codec: Codec)
    requires '<' !in prose && '<' !in body
    ensures ParseToolCall(prose + OpenTag + body + CloseTag + rest, codec) == TryLoads(codec, body)
  {
    TagSpanAmidProse(prose, body, rest);
  }

  /** The lenient parser on an envelope amid prose decodes the stripped body, and when that fails
      it gives None even if the prose holds a brace span with both keys. */
  lemma LenientAmidProse(prose: string, body: string, rest: string, codec: Codec)
    requires '<' !in prose && '<' !in body
    ensures ParseToolCallLenient(prose + OpenTag + body + CloseTag + rest, codec)
            == TryLoads(codec, Strip(body))
    ensures codec.decode(Strip(body)).Err? ==>
            ParseToolCallLenient(prose + OpenTag + body + CloseTag + rest, codec).None?
  {
    TagSpanAmidProse(prose, body, rest);
  }

  /** A text without `<` has no tag pair. */
  lemma NoTagSpan(text: string)
    requires '<' !in text
    ensures TagSpan(text).None?
  {
    forall k | 0 <= k < |text| ensures !OccursAt(text, OpenTag, k) {
      assert text[k] in text;
      NotOccursAt(text, OpenTag, k);
    }
  }

  /** Without tags, the brace fallback decodes from the first `{` to the first `}` after the
      `"action"` key. After prose with no brace or `<`, an object `head + "}"` with no `}` inside is
      decoded whole; when that `}` closes a nested object, the decoder sees only `head + "}"`, cut
      short of the rest of the object in `tail`. */
  lemma LenientBraceSpan(prose: string, head: string, tail: string, t: nat, a: nat, codec: Codec)
    requires '<' !in prose && '{' !in prose && '}' !in prose
    requires |head| > 0 && head[0] == '{'
    requires '<' !in head && '<' !in tail && '}' !in head
    requires 1 <= t && OccursAt(head, ToolKey, t)
    requires t + |ToolKey| <= a && OccursAt(head, ActionKey, a) && a + |ActionKey| <= |head|
    ensures BraceMatch(prose + head + "}" + tail).Some?
    ensures BraceCandidate(prose + head + "}" + tail) == head + "}"
    ensures ParseToolCallLenient(prose + head + "}" + tail, codec) == TryLoads(codec, head + "}")
  {
    var text := prose + head + "}" + tail;
    var n0 := |prose|;
    assert '<' !in text;
    NoTagSpan(text);
    BraceSpanOf(prose, head, tail, t, a);
    assert text[n0..n0 + |head| + 1] == head + "}";
  }

  /** Where the lazy brace match of such a text starts and ends. */
  lemma BraceSpanOf(prose: string, head: string, tail: string, t: nat, a: nat)
    requires '{' !in prose && '}' !in prose
    requires |head| > 0 && head[0] == '{' && '}' !in head
    requires 1 <= t && OccursAt(head, ToolKey, t)
    requires t + |ToolKey| <= a && OccursAt(head, ActionKey, a) && a + |ActionKey| <= |head|
    ensures var m := BraceMatch(prose + head + "}" + tail);
      m.Some? && m.value.0 == |prose| && m.value.3 == |prose| + |head|
  {
    var text := prose + head + "}" + tail;
    var n0 := |prose|;
    assert text == prose + head + ("}" + tail);
    FirstOpenBrace(prose, head, "}" + tail);
    OccursAtInfix(prose, head, "}" + tail, ToolKey, t);
    var t0 := FindFrom(text, ToolKey, n0 + 1).value;
    OccursAtInfix(prose, head, "}" + tail, ActionKey, a);
    var a0 := FindFrom(text, ActionKey, t0 + |ToolKey|).value;
    assert '}' !in prose + head;
    assert text == (prose + head) + "}" + tail;
    FirstCloseBrace(prose + head, tail, a0 + |ActionKey|);
  }

  /** The first `{` of prose without braces followed by an object opens the object. */
  lemma FirstOpenBrace(prose: string, head: string, rest: string)
    requires '{' !in prose && |head| > 0 && head[0] == '{'
    ensures FindFrom(prose + head + rest, "{", 0) == Some(|prose|)
  {
    var text := prose + head + rest;
    var n0 := |prose|;
    assert text[n0..n0 + 1] == "{";
    forall k | 0 <= k < n0 ensures !OccursAt(text, "{", k) {
      assert text[k] == prose[k];
      NotOccursAt(text, "{", k);
    }
    FindFromIs(text, "{", 0, n0);
  }

  /** In `head + "}" + tail` with no `}` in `head`, the first `}` from inside `head` ends it. */
  lemma FirstCloseBrace(head: string, tail: string, from: nat)
    requires from <= |head| && '}' !in head
    ensures FindFrom(head + "}" + tail, "}", from) == Some(|head|)
  {
    var text := head + "}" + tail;
    var n := |head|;
    assert text[n..n + 1] == "}";
    forall k | from <= k < n ensures !OccursAt(text, "}", k) {
      assert text[k] == head[k];
      NotOccursAt(text, "}", k);
    }
    FindFromIs(text, "}", from, n);
  }
}
