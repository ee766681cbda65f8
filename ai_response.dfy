/**
 * Reading the AI's replies: the message-content normalisation the pages
 * share, and `parseAIResponse` (app/lib/utils.ts), which tries `JSON.parse`
 * on the whole reply and, failing that, on the span from the first `{` to
 * the last `}`. `JSON.parse` is a parameter: `Ok(v)` when it returns `v`,
 * `Err(m)` when it throws with message `m`.
 */
module AiResponse {
  import opened Wrappers
  import opened Text

  /** One element of a multi-part message content. */
  datatype Part = Part(text: Option<string>)

  /** `message.content`: a plain string, or an array of parts. */
  datatype Content = TextContent(text: string) | PartList(parts: seq<Part>)

  /**
   * `typeof content === 'string' ? content : content[0]?.text || ''`:
   * a string is used as it is, otherwise the first part's text when that is
   * a non-empty string, otherwise the empty string.
   */
  function ContentText(c: Content): (r: string)
    ensures c.TextContent? ==> r == c.text
    ensures c.PartList? && |c.parts| > 0 && Truthy(c.parts[0].text) ==> r == c.parts[0].text.value
    ensures c.PartList? && (|c.parts| == 0 || !Truthy(c.parts[0].text)) ==> r == ""
  {
    match c
    case TextContent(s) => s
    case PartList(ps) => if |ps| > 0 then OrElse(ps[0].text, "") else ""
  }

  predicate HasBracePair(text: string) {
    exists i, j :: 0 <= i < j < |text| && text[i] == '{' && text[j] == '}'
  }

  /**
   * The match of `/\{[\s\S]*\}/`: it starts at the first `{` and, being
   * greedy over every character including newlines, ends at the last `}`;
   * there is none when no `}` follows the first `{`.
   */
  function ObjectMatch(text: string): (r: Option<string>)
    ensures r.None? <==> !HasBracePair(text)
    ensures r.Some? ==> |r.value| >= 2 && r.value[0] == '{' && r.value[|r.value| - 1] == '}'
    ensures r.Some? ==> exists i: nat ::
      (i + |r.value| <= |text| && OccursAt(text, r.value, i)
       && (forall k :: 0 <= k < i ==> text[k] != '{')
       && (forall k :: i + |r.value| <= k < |text| ==> text[k] != '}'))
  {
    match IndexOfChar(text, '{')
    case None => None
    case Some(i) =>
      match LastIndexOfChar(text, '}')
      case None => None
      case Some(j) =>
        if i < j then
          var span := text[i..j + 1];
          assert OccursAt(text, span, i);
          Some(span)
        else None
  }

  /**
   * `parseAIResponse`: the whole reply if it parses, else the parsed brace
   * span, else `null`. Errors are caught, so the result is always a value.
   */
  function ParseAIResponse<T>(text: string, parse: string -> Result<T>): (r: Option<T>)
    ensures parse(text).Ok? ==> r == Some(parse(text).value)
    ensures parse(text).Err? && !HasBracePair(text) ==> r.None?
    ensures parse(text).Err? && ObjectMatch(text).Some? ==>
      r == (match parse(ObjectMatch(text).value) case Ok(v) => Some(v) case Err(_) => None)
  {
    match parse(text)
    case Ok(v) => Some(v)
    case Err(_) =>
      match ObjectMatch(text)
      case None => None
      case Some(span) =>
        match parse(span)
        case Ok(v) => Some(v)
        case Err(_) => None
  }

  /**
   * A reply that wraps one JSON object in prose or a code fence, with no `{`
   * before it and no `}` after it, yields exactly that object's span.
   */
  lemma {:induction false} ObjectMatchOfWrapped(pre: string, obj: string, post: string)
    requires |obj| >= 2 && obj[0] == '{' && obj[|obj| - 1] == '}'
    requires forall k :: 0 <= k < |pre| ==> pre[k] != '{'
    requires forall k :: 0 <= k < |post| ==> post[k] != '}'
    ensures ObjectMatch(pre + obj + post) == Some(obj)
  {
    var text := pre + obj + post;
    assert text[|pre|] == '{';
    assert text[|pre| + |obj| - 1] == '}';
    var i := IndexOfChar(text, '{');
    var j := LastIndexOfChar(text, '}');
    assert i == Some(|pre|) by {
      assert forall k :: 0 <= k < |pre| ==> text[k] == pre[k];
    }
    assert j == Some(|pre| + |obj| - 1) by {
      assert forall k :: |pre| + |obj| <= k < |text| ==> text[k] == post[k - |pre| - |obj|];
    }
    assert text[|pre|..|pre| + |obj|] == obj;
  }

  /**
   * So the fallback recovers the object whenever the whole reply does not
   * parse but the wrapped object does.
   */
  lemma ParseRecoversWrapped<T>(pre: string, obj: string, post: string, parse: string -> Result<T>)
    requires |obj| >= 2 && obj[0] == '{' && obj[|obj| - 1] == '}'
    requires forall k :: 0 <= k < |pre| ==> pre[k] != '{'
    requires forall k :: 0 <= k < |post| ==> post[k] != '}'
    requires parse(pre + obj + post).Err? && parse(obj).Ok?
    ensures ParseAIResponse(pre + obj + post, parse) == Some(parse(obj).value)
  {
    ObjectMatchOfWrapped(pre, obj, post);
  }

  /** A reply in a Markdown code fence: the fence is stripped by the fallback. */
  lemma FencedReply(obj: string)
    requires |obj| >= 2 && obj[0] == '{' && obj[|obj| - 1] == '}'
    ensures ObjectMatch("```json\n" + obj + "\n```") == Some(obj)
  {
    ObjectMatchOfWrapped("```json\n", obj, "\n```");
  }
}
