/**
 * Message values and the pure helpers of the HTTP client module:
 * the text view of message content, the request URL join, and the
 * filter that turns decoded SSE stream items into stream events.
 * The HTTP calls themselves are not part of this model.
 */
module Network {
  import opened Wrappers
  import opened Errors
  import opened Text

  /** A chat message as the API client sends it: a role and plain text content. */
  datatype Message = Message(role: string, content: string)

  datatype ImageSource = ImageSource(sourceType: string, mediaType: string, data: string)

  /** A content block; the JSON input of a tool call is kept as its raw text. */
  datatype ContentBlock =
    | TextBlock(text: string)
    | Image(source: ImageSource)
    | ToolUse(id: string, name: string, input: string)
    | ToolResult(toolUseId: string, content: string, isError: Option<bool>)

  /** Message content: plain text or a list of blocks. */
  datatype MessageContent = TextContent(text: string) | Blocks(blocks: seq<ContentBlock>)

  /** The text a block contributes to length and search: text and tool results only. */
  function BlockText(b: ContentBlock): string {
    match b
    case TextBlock(t) => t
    case ToolResult(_, c, _) => c
    case _ => ""
  }

  function BlocksLen(bs: seq<ContentBlock>): nat {
    if bs == [] then 0 else Utf8Len(BlockText(bs[0])) + BlocksLen(bs[1..])
  }

  /** `MessageContent::len`: UTF-8 bytes of the text and tool-result blocks. */
  function Len(c: MessageContent): (n: nat)
    ensures c.TextContent? ==> n == Utf8Len(c.text)
    ensures c.Blocks? ==> n == BlocksLen(c.blocks)
  {
    match c
    case TextContent(s) => Utf8Len(s)
    case Blocks(bs) => BlocksLen(bs)
  }

  /** No text contributes to the length: the independent reading of emptiness. */
  predicate Blank(c: MessageContent) {
    match c
    case TextContent(s) => s == []
    case Blocks(bs) => forall i :: 0 <= i < |bs| ==> BlockText(bs[i]) == []
  }

  lemma {:induction false} BlocksLenZero(bs: seq<ContentBlock>)
    ensures BlocksLen(bs) == 0 <==> forall i :: 0 <= i < |bs| ==> BlockText(bs[i]) == []
  {
    if bs != [] {
      BlocksLenZero(bs[1..]);
      assert forall i :: 1 <= i < |bs| ==> bs[i] == bs[1..][i - 1];
    }
  }

  /** `MessageContent::is_empty`: holds exactly when no block contributes text. */
  function IsEmpty(c: MessageContent): (r: bool)
    ensures r <==> Blank(c)
    ensures r <==> Len(c) == 0
  {
    match c
    case TextContent(_) => Len(c) == 0
    case Blocks(bs) => BlocksLenZero(bs); Len(c) == 0
  }

  function BlocksContain(bs: seq<ContentBlock>, t: string): bool {
    exists i :: 0 <= i < |bs| && (bs[i].TextBlock? || bs[i].ToolResult?) && Text.Contains(BlockText(bs[i]), t)
  }

  /**
   * `MessageContent::contains`: some text or tool-result block contains
   * `t`; whatever it finds, the string `as_str` renders contains too.
   */
  function ContentContains(c: MessageContent, t: string): (r: bool)
    ensures c.TextContent? ==> (r <==> Text.Contains(AsStr(c), t))
    ensures r ==> Text.Contains(AsStr(c), t)
  {
    match c
    case TextContent(s) => Text.Contains(s, t)
    case Blocks(bs) =>
      if BlocksContain(bs, t) then
        var i :| 0 <= i < |bs| && (bs[i].TextBlock? || bs[i].ToolResult?) && Text.Contains(BlockText(bs[i]), t);
        JoinHasPart(RenderAll(bs), " ", i, t);
        true
      else false
  }

  /** How `as_str` renders one block. */
  function RenderBlock(b: ContentBlock): string {
    match b
    case TextBlock(t) => t
    case ToolResult(_, c, _) => c
    case ToolUse(_, name, _) => "[Tool: " + name + "]"
    case Image(_) => "[Image]"
  }

  function RenderAll(bs: seq<ContentBlock>): (r: seq<string>)
    ensures |r| == |bs|
    ensures forall i :: 0 <= i < |bs| ==> r[i] == RenderBlock(bs[i])
  {
    if bs == [] then [] else [RenderBlock(bs[0])] + RenderAll(bs[1..])
  }

  /** `MessageContent::as_str`: text verbatim, blocks rendered and joined by one space. */
  function AsStr(c: MessageContent): (r: string)
    ensures c.TextContent? ==> r == c.text
  {
    match c
    case TextContent(s) => s
    case Blocks(bs) => Join(RenderAll(bs), " ")
  }

  /** Every piece of a joined list occurs in the joined text. */
  lemma {:induction false} JoinHasPart(parts: seq<string>, sep: string, i: nat, t: string)
    requires i < |parts| && Text.Contains(parts[i], t)
    ensures Text.Contains(Join(parts, sep), t)
  {
    if |parts| > 1 {
      if i == 0 {
        ContainsInPrefix(parts[0], sep + Join(parts[1..], sep), t);
        assert parts[0] + sep + Join(parts[1..], sep) == parts[0] + (sep + Join(parts[1..], sep));
      } else {
        JoinHasPart(parts[1..], sep, i - 1, t);
        ContainsInSuffix(parts[0] + sep, Join(parts[1..], sep), t);
      }
    }
  }

  /**
   * The URL the client requests: an endpoint starting with "http" is used as
   * it is; otherwise the base without trailing '/' and the endpoint without
   * leading '/' are joined by exactly one '/'.
   */
  function RequestUrl(baseUrl: string, endpoint: string): (url: string)
    ensures StartsWith(endpoint, "http") ==> url == endpoint
    ensures !StartsWith(endpoint, "http") ==>
      url == TrimEndChar(baseUrl, '/') + "/" + TrimStartChar(endpoint, '/')
  {
    if StartsWith(endpoint, "http") then endpoint
    else TrimEndChar(baseUrl, '/') + "/" + TrimStartChar(endpoint, '/')
  }

  /**
   * Outside the pass-through case, exactly one '/' separates base and
   * endpoint: the URL is the base up to its trailing slashes, one '/', and
   * the endpoint after its leading slashes.
   */
  lemma {:induction false} RequestUrlSingleSlash(baseUrl: string, endpoint: string)
    requires !StartsWith(endpoint, "http")
    ensures var url := RequestUrl(baseUrl, endpoint);
      var k := |TrimEndChar(baseUrl, '/')|;
      && k < |url| && url[k] == '/'
      && (k == 0 || url[k - 1] != '/')
      && (k + 1 == |url| || url[k + 1] != '/')
      && url[..k] == baseUrl[..k]
      && url[k + 1..] == TrimStartChar(endpoint, '/')
  {
    var b := TrimEndChar(baseUrl, '/');
    var e := TrimStartChar(endpoint, '/');
    SlashJoined(b, e);
  }

  lemma {:induction false} SlashJoined(b: string, e: string)
    requires b == [] || b[|b| - 1] != '/'
    requires e == [] || e[0] != '/'
    ensures var url := b + "/" + e;
      && url[|b|] == '/'
      && url[..|b|] == b
      && url[|b| + 1..] == e
      && (b == [] || url[|b| - 1] != '/')
      && (e == [] || url[|b| + 1] != '/')
  {
  }

  /** Joining a base that already ends in '/' gives the same URL as without it. */
  lemma RequestUrlIgnoresTrailingSlash(baseUrl: string, endpoint: string)
    ensures RequestUrl(baseUrl + "/", endpoint) == RequestUrl(baseUrl, endpoint)
  {
    var s := baseUrl + "/";
    assert s[..|s| - 1] == baseUrl;
    assert TrimEndChar(s, '/') == TrimEndChar(baseUrl, '/');
  }

  /** What one decoded stream item contributes to the event stream. */
  function SseItem<E>(item: Result<string, ClaudeError>, parseEvent: string -> Result<E, string>): (r: seq<Result<E, ClaudeError>>)
    ensures |r| <= 1
  {
    match item
    case Err(e) => [Err(e)]
    case Ok(line) =>
      if StartsWith(line, "data: ") then
        var data := line[6..];
        if data == "[DONE]" then []
        else match parseEvent(data)
          case Ok(ev) => [Ok(ev)]
          case Err(detail) => [Err(Json(detail))]
      else []
  }

  /**
   * The SSE filter of the streaming message call: items without the
   * "data: " prefix and "[DONE]" items produce nothing; other data is parsed
   * as an event (the JSON parser is a parameter), a parse failure becoming
   * a JSON error; transport errors pass
   * through.
   */
  function SseEvents<E>(items: seq<Result<string, ClaudeError>>, parseEvent: string -> Result<E, string>): (r: seq<Result<E, ClaudeError>>)
    ensures |r| <= |items|
  {
    if items == [] then [] else SseItem(items[0], parseEvent) + SseEvents(items[1..], parseEvent)
  }

  /** The filter is applied item by item, so it can run over a stream in pieces. */
  lemma {:induction false} SseEventsAppend<E>(a: seq<Result<string, ClaudeError>>, b: seq<Result<string, ClaudeError>>, parseEvent: string -> Result<E, string>)
    ensures SseEvents(a + b, parseEvent) == SseEvents(a, parseEvent) + SseEvents(b, parseEvent)
  {
    if a != [] {
      assert (a + b)[1..] == a[1..] + b;
      SseEventsAppend(a[1..], b, parseEvent);
    } else {
      assert a + b == b;
    }
  }

  /** "[DONE]" does not end the stream: the items after it are still filtered. */
  lemma DoneDoesNotStop<E>(rest: seq<Result<string, ClaudeError>>, parseEvent: string -> Result<E, string>)
    ensures SseEvents([Ok("data: [DONE]")] + rest, parseEvent) == SseEvents(rest, parseEvent)
  {
    var items := [Ok("data: [DONE]")] + rest;
    assert items[0] == Ok("data: [DONE]");
    assert StartsWith("data: [DONE]", "data: ");
    assert "data: [DONE]"[6..] == "[DONE]";
    assert items[1..] == rest;
  }
}
