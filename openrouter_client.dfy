/**
 * The OpenRouter reply provider: the chat-completions request it builds and
 * the normalisation of whatever comes back. The HTTP exchange itself
 * (`requests.post` and `resp.json()`) is the abstract `post` parameter.
 */
module OpenRouter {
  import opened Wrappers
  import opened Text
  import opened Json
  import opened ChatLlm

  const ChatCompletionsUrl := "https://openrouter.ai/api/v1/chat/completions"
  const TimeoutSeconds := 30

  const RequestFailed := "openrouter_request_failed"
  const InvalidJson := "openrouter_invalid_json"
  const HttpErrorPrefix := "openrouter_http_"

  datatype Config = Config(apiKey: string, model: string, systemPrompt: string)

  /** A POST request: target, headers, the JSON body before encoding, and the timeout. */
  datatype Request = Request(url: string, headers: seq<(string, string)>, body: Json, timeoutSeconds: nat)

  /** A response as `requests` exposes it; `body` is `None` when `resp.json()` raises. */
  datatype HttpResponse = HttpResponse(statusCode: int, body: Option<Json>)

  /** `requests.post` either raises (timeout, refused connection, ...) or yields a response. */
  datatype PostOutcome = TransportError | Responded(response: HttpResponse)

  /** `{"role": "user", "content": prompt}`. */
  function UserMessage(prompt: string): (m: Json)
    ensures m.JObject?
    ensures Get(m.fields, "role") == JString("user") && Get(m.fields, "content") == JString(prompt)
  {
    GetOfPair("role", JString("user"), "content", JString(prompt));
    JObject([("role", JString("user")), ("content", JString(prompt))])
  }

  /** The request body: the configured model and a single user message carrying the prompt. */
  function Payload(cfg: Config, userText: string): (j: Json)
    ensures j.JObject?
    ensures Get(j.fields, "model") == JString(cfg.model)
    ensures Get(j.fields, "messages") == JArray([UserMessage(Prompt(cfg.systemPrompt, userText))])
  {
    var messages := JArray([UserMessage(Prompt(cfg.systemPrompt, userText))]);
    GetOfPair("model", JString(cfg.model), "messages", messages);
    JObject([("model", JString(cfg.model)), ("messages", messages)])
  }

  function BuildRequest(cfg: Config, userText: string): Request
  {
    Request(
      ChatCompletionsUrl,
      [("Authorization", "Bearer " + cfg.apiKey), ("Content-Type", "application/json")],
      Payload(cfg, userText),
      TimeoutSeconds)
  }

  /**
   * The request names the configured model and carries exactly one message,
   * of role `user`, whose content is the prompt; it is authorised with the API key.
   */
  lemma RequestCarriesOneUserMessage(cfg: Config, userText: string)
    ensures var req := BuildRequest(cfg, userText);
      && req.url == ChatCompletionsUrl
      && req.timeoutSeconds == 30
      && req.body.JObject?
      && Get(req.body.fields, "model") == JString(cfg.model)
      && var msgs := Get(req.body.fields, "messages");
      && msgs.JArray? && |msgs.items| == 1
      && msgs.items[0].JObject?
      && Get(msgs.items[0].fields, "role") == JString("user")
      && Get(msgs.items[0].fields, "content") == JString(cfg.systemPrompt + "\n\nUser: " + userText + "\nAssistant:")
      && req.headers == [("Authorization", "Bearer " + cfg.apiKey), ("Content-Type", "application/json")]
  {
  }

  // ---------------------------------------------------------------------------
  // _content_to_str

  /** The `text` of one content part, when the part is a dict whose `text` is a string. */
  function PartText(part: Json): Option<string>
  {
    if part.JObject? then
      match Get(part.fields, "text")
      case JString(t) => Some(t)
      case _ => None
    else
      None  // `getattr(part, "text", None)` is `None` for every non-dict JSON value
  }

  /** The string `text` fields of `parts`, in order, skipping the parts without one. */
  function TextParts(parts: seq<Json>): seq<string>
  {
    if parts == [] then []
    else
      var last := parts[|parts| - 1];
      TextParts(parts[..|parts| - 1]) + (if PartText(last).Some? then [PartText(last).value] else [])
  }

  /** `"".join(parts)`. */
  function Concat(parts: seq<string>): string
  {
    if parts == [] then [] else Concat(parts[..|parts| - 1]) + parts[|parts| - 1]
  }

  /** What `_content_to_str(content)` returns. */
  function ContentText(content: Json): Option<string>
  {
    match content
    case JString(s) => Some(s)
    case JArray(parts) =>
      var texts := TextParts(parts);
      if texts != [] then Some(Concat(texts)) else None
    case _ => None
  }

  /** `_content_to_str`, collecting the parts' texts with a loop as the source does. */
  method ContentToStr(content: Json) returns (r: Option<string>)
    ensures r == ContentText(content)
  {
    if content.JString? {
      return Some(content.s);
    }
    if content.JArray? {
      var items := content.items;
      var parts: seq<string> := [];
      var i := 0;
      while i < |items|
        invariant 0 <= i <= |items|
        invariant parts == TextParts(items[..i])
      {
        var textValue := JNull;
        if items[i].JObject? {
          textValue := Get(items[i].fields, "text");
        }
        if textValue.JString? {
          parts := parts + [textValue.s];
        }
        assert items[..i + 1][..i] == items[..i];
        i := i + 1;
      }
      assert items[..i] == items;
      if parts != [] {
        return Some(Concat(parts));
      }
    }
    return None;
  }

  /** Collecting texts distributes over concatenation of the part lists. */
  lemma {:induction false} TextPartsAppend(a: seq<Json>, b: seq<Json>)
    ensures TextParts(a + b) == TextParts(a) + TextParts(b)
    decreases |b|
  {
    if b == [] {
      assert a + b == a;
    } else {
      var b' := b[..|b| - 1];
      assert (a + b)[..|a + b| - 1] == a + b';
      TextPartsAppend(a, b');
    }
  }

  /** One part contributes its string `text` if it has one, and nothing otherwise. */
  lemma TextPartsSingle(p: Json)
    ensures TextParts([p]) == if PartText(p).Some? then [PartText(p).value] else []
  {
    assert [p][..0] == [];
  }

  /** No text is collected exactly when no part has a string `text`. */
  lemma {:induction false} TextPartsEmpty(parts: seq<Json>)
    ensures TextParts(parts) == [] <==> forall i :: 0 <= i < |parts| ==> PartText(parts[i]).None?
    decreases |parts|
  {
    if parts != [] {
      var init := parts[..|parts| - 1];
      TextPartsEmpty(init);
      assert forall i :: 0 <= i < |init| ==> init[i] == parts[i];
    }
  }

  /**
   * A string `content` is returned unchanged (the empty string included); a list
   * gives the concatenation of its parts' string texts when at least one part
   * has one and `None` otherwise; any other value gives `None`.
   */
  lemma ContentTextCases(content: Json)
    ensures content.JString? ==> ContentText(content) == Some(content.s)
    ensures content.JArray? ==>
      (ContentText(content).Some? <==> exists i :: 0 <= i < |content.items| && PartText(content.items[i]).Some?)
    ensures content.JArray? && ContentText(content).Some? ==>
      ContentText(content).value == Concat(TextParts(content.items))
    ensures !content.JString? && !content.JArray? ==> ContentText(content) == None
  {
    if content.JArray? {
      TextPartsEmpty(content.items);
    }
  }

  // ---------------------------------------------------------------------------
  // _extract_content

  /** What `_extract_content` makes of a decoded body. */
  datatype Extraction =
    | Found(text: string)
    | NoContent
    | Crash  // `.get` on a value that is not a dict

  /**
   * `_extract_content(body)` for a body `resp.json()` produced. The attribute
   * branch never applies to such a body (`getattr(d, "choices", None)` is `None`
   * for a dict, list, str, int or bool), so only the dict fallback runs.
   */
  function ExtractContent(body: Json): Extraction
  {
    if !body.JObject? then NoContent
    else
      var ch := Or(Get(body.fields, "choices"), JArray([]));
      if !(ch.JArray? && ch.items != []) then NoContent
      else
        var first := ch.items[0];
        if !first.JObject? then Crash
        else
          var msg := Or(Get(first.fields, "message"), JObject([]));
          if !msg.JObject? then Crash
          else
            match ContentText(Get(msg.fields, "content"))
            case Some(t) => Found(t)
            case None => NoContent
  }

  /** The non-empty list of choices a dict body offers, if it offers one. */
  function Choices(body: Json): Option<seq<Json>>
  {
    if body.JObject? then
      match Get(body.fields, "choices")
      case JArray(items) => if items != [] then Some(items) else None
      case _ => None
    else None
  }

  /**
   * Only a dict body with a non-empty `choices` list can yield content or crash,
   * and then only its first choice is looked at: a first choice that is not a
   * dict, or whose `message` is truthy but not a dict, crashes; otherwise the
   * result is `_content_to_str` of `message.content`.
   */
  lemma ExtractContentCases(body: Json)
    ensures Choices(body).None? ==> ExtractContent(body) == NoContent
    ensures Choices(body).Some? ==>
      var first := Choices(body).value[0];
      && (!first.JObject? ==> ExtractContent(body) == Crash)
      && (first.JObject? ==>
            var m := Get(first.fields, "message");
            && (Truthy(m) && !m.JObject? ==> ExtractContent(body) == Crash)
            && (!Truthy(m) ==> ExtractContent(body) == NoContent)
            && (m.JObject? ==>
                  ExtractContent(body) ==
                    match ContentText(Get(m.fields, "content"))
                    case Some(t) => Found(t)
                    case None => NoContent))
  {
  }

  /** Choices after the first one never matter. */
  lemma ExtractContentFirstChoiceOnly(b1: Json, b2: Json)
    requires Choices(b1).Some? && Choices(b2).Some?
    requires Choices(b1).value[0] == Choices(b2).value[0]
    ensures ExtractContent(b1) == ExtractContent(b2)
  {
  }

  // ---------------------------------------------------------------------------
  // generate_reply

  /** The tail of `generate_reply`, from the outcome of the POST to the reply. */
  function HandleResponse(outcome: PostOutcome): (r: Reply)
    ensures outcome.TransportError? ==> r == Failure(RuntimeError(RequestFailed))
    ensures outcome.Responded? && outcome.response.statusCode >= 400 ==>
      r == Failure(RuntimeError(HttpErrorPrefix + DecimalString(outcome.response.statusCode)))
    ensures outcome.Responded? && outcome.response.statusCode < 400 && outcome.response.body.None? ==>
      r == Failure(RuntimeError(InvalidJson))
    ensures r.Success? ==>
      && outcome.Responded? && outcome.response.statusCode < 400 && outcome.response.body.Some?
      && var e := ExtractContent(outcome.response.body.value);
      && e.Found? && r.value == Strip(e.text)
      && Trimmed(r.value)
  {
    match outcome
    case TransportError => Failure(RuntimeError(RequestFailed))
    case Responded(resp) =>
      if resp.statusCode >= 400 then
        Failure(RuntimeError(HttpErrorPrefix + DecimalString(resp.statusCode)))
      else
        match resp.body
        case None => Failure(RuntimeError(InvalidJson))
        case Some(body) =>
          match ExtractContent(body)
          case Crash => Failure(AttributeError)
          case NoContent => Failure(RuntimeError(EmptyModelResponse))
          case Found(text) => NormaliseReply(text)
  }

  /**
   * A decodable body with status below 400 ends in `empty_model_response` exactly
   * when no content was found or the content is blank, and in the stripped
   * content otherwise.
   */
  lemma HandleResponseContent(status: int, body: Json)
    requires status < 400
    ensures var r := HandleResponse(Responded(HttpResponse(status, Some(body))));
      match ExtractContent(body)
      case Crash => r == Failure(AttributeError)
      case NoContent => r == Failure(RuntimeError(EmptyModelResponse))
      case Found(t) =>
        && (AllSpace(t) ==> r == Failure(RuntimeError(EmptyModelResponse)))
        && (!AllSpace(t) ==> r == Success(Strip(t)))
  {
  }

  /** An error status is reported before the body is looked at. */
  lemma StatusCheckedFirst(status: int, b1: Option<Json>, b2: Option<Json>)
    requires status >= 400
    ensures HandleResponse(Responded(HttpResponse(status, b1))) == HandleResponse(Responded(HttpResponse(status, b2)))
    ensures HandleResponse(Responded(HttpResponse(status, b1))).Failure?
  {
  }

  /** `OpenRouterChatService(cfg).generate_reply(userText)` against the HTTP exchange `post`. */
  function GenerateReply(cfg: Config, userText: string, post: Request -> PostOutcome): (r: Reply)
    ensures r.Success? ==> post(BuildRequest(cfg, userText)).Responded?
    ensures post(BuildRequest(cfg, userText)).TransportError? ==> r == Failure(RuntimeError(RequestFailed))
    ensures r.Success? ==> Trimmed(r.value)
  {
    HandleResponse(post(BuildRequest(cfg, userText)))
  }

  /** A body of the usual shape: one choice whose message has the given content. */
  function OneChoiceBody(content: Json): Json
  {
    JObject([("choices", JArray([JObject([("message", JObject([("content", content)]))])]))])
  }

  /** A body with one choice of the usual shape extracts whatever `_content_to_str` makes of its content. */
  lemma ExtractOneChoice(content: Json)
    ensures ExtractContent(OneChoiceBody(content)) ==
      match ContentText(content)
      case Some(t) => Found(t)
      case None => NoContent
  {
  }

  /** A part `{"text": t}` contributes `t`. */
  lemma PartTextOfText(t: string)
    ensures PartText(JObject([("text", JString(t))])) == Some(t)
  {
    assert Lookup([("text", JString(t))], "text") == Some(JString(t));
  }

  /** Three parts of which the middle one has no text collect the outer two texts. */
  lemma TextPartsSkipMiddle(a: Json, e: Json, b: Json)
    requires PartText(a).Some? && PartText(e).None? && PartText(b).Some?
    ensures TextParts([a, e, b]) == [PartText(a).value, PartText(b).value]
  {
    TextPartsSingle(a);
    TextPartsSingle(e);
    TextPartsSingle(b);
    TextPartsAppend([a], [e]);
    TextPartsAppend([a, e], [b]);
    assert [a] + [e] == [a, e];
    assert [a, e] + [b] == [a, e, b];
  }

  /** Joining two strings concatenates them. */
  lemma ConcatPair(x: string, y: string)
    ensures Concat([x, y]) == x + y
  {
    assert [x, y][..1] == [x];
    assert [x][..0] == [];
    assert Concat([x]) == [] + x;
    assert [] + x == x;
  }

  /** Parts `[{"text": x}, {}, {"text": y}]` give `x + y`: the part without text is skipped. */
  lemma ExtractionExampleParts(x: string, y: string)
    ensures ExtractContent(OneChoiceBody(JArray([
      JObject([("text", JString(x))]), JObject([]), JObject([("text", JString(y))])]))) == Found(x + y)
  {
    var a, e, b := JObject([("text", JString(x))]), JObject([]), JObject([("text", JString(y))]);
    PartTextOfText(x);
    PartTextOfText(y);
    TextPartsSkipMiddle(a, e, b);
    ConcatPair(x, y);
    assert ContentText(JArray([a, e, b])) == Some(x + y);
    ExtractOneChoice(JArray([a, e, b]));
  }

  /** Plain string content is taken as it is. */
  lemma ExtractionExamplePlain()
    ensures ExtractContent(OneChoiceBody(JString("plain"))) == Found("plain")
  {
    ExtractOneChoice(JString("plain"));
  }

  /** An empty `choices` list gives no content, hence `empty_model_response`. */
  lemma ExtractionExampleNoChoices()
    ensures ExtractContent(JObject([("choices", JArray([]))])) == NoContent
    ensures HandleResponse(Responded(HttpResponse(200, Some(JObject([("choices", JArray([]))])))))
      == Failure(RuntimeError(EmptyModelResponse))
  {
  }
}
